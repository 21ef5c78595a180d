/**
 * Progressive capture targets: from one element outwards to its component,
 * its section and the viewport.
 */
module Capture {
  import opened Common

  datatype Rect = Rect(x: real, y: real, width: real, height: real)

  datatype Ownership = Ownership(framework: Option<string>, file: string, component: string)

  datatype Node = Node(
    reference: string, tag: string, role: Option<string>, rect: Option<Rect>, ownership: Option<Ownership>,
    source: Option<Option<string>>, children: seq<Node>)

  datatype Viewport = Viewport(width: nat, height: nat)

  datatype Kind = ElementTarget | ComponentTarget | SectionTarget | ViewportTarget

  datatype Provenance =
    | StableElementRef(reference: string)
    | SourceComponent(component: string, ownerRef: string)
    | SemanticSection(ownerRef: string, boundary: string)
    | ViewportFallback

  datatype Target = Target(kind: Kind, rect: Rect, provenance: Provenance, confidenceMilli: nat)

  datatype Refusal = InvalidViewport | ReferenceNotFound | InvalidElementGeometry

  // --------------------------------------------------------------------- geometry

  function Max(a: real, b: real): real { if a < b then b else a }

  function Min(a: real, b: real): real { if b < a then b else a }

  function Whole(v: Viewport): Rect { Rect(0.0, 0.0, v.width as real, v.height as real) }

  /** `validate_and_clip` */
  function Clip(r: Rect, v: Viewport): Option<Rect> {
    if v.width == 0 || v.height == 0 || r.width <= 0.0 || r.height <= 0.0 then None
    else
      var left, top := Max(r.x, 0.0), Max(r.y, 0.0);
      var right, bottom := Min(r.x + r.width, v.width as real), Min(r.y + r.height, v.height as real);
      if right <= left || bottom <= top then None else Some(Rect(left, top, right - left, bottom - top))
  }

  /** `contains_rect` */
  predicate Contains(outer: Rect, inner: Rect) {
    && outer.x <= inner.x && outer.y <= inner.y
    && outer.x + outer.width >= inner.x + inner.width && outer.y + outer.height >= inner.y + inner.height
  }

  function Clamp(r: Rect, v: Viewport): Rect {
    var x, y := Min(Max(r.x, 0.0), v.width as real), Min(Max(r.y, 0.0), v.height as real);
    Rect(x, y, Max(Min(r.width, v.width as real - x), 0.0), Max(Min(r.height, v.height as real - y), 0.0))
  }

  function Expand(r: Rect, pad: real, v: Viewport): Rect {
    Clamp(Rect(r.x - pad, r.y - pad, r.width + pad * 2.0, r.height + pad * 2.0), v)
  }

  predicate HasArea(r: Rect) { r.width > 0.0 && r.height > 0.0 }

  predicate Covers(r: Rect, x: real, y: real) { r.x <= x < r.x + r.width && r.y <= y < r.y + r.height }

  /** Clipping keeps exactly the points of the rectangle that are in the viewport, and fails when there are none. */
  lemma ClipIsIntersection(r: Rect, v: Viewport, x: real, y: real)
    ensures Clip(r, v).Some? ==>
              && HasArea(Clip(r, v).value) && Contains(Whole(v), Clip(r, v).value)
              && (Covers(Clip(r, v).value, x, y) <==> Covers(r, x, y) && Covers(Whole(v), x, y))
    ensures Clip(r, v).None? && HasArea(r) ==> !(Covers(r, x, y) && Covers(Whole(v), x, y))
  {
  }

  /** In the viewport, with every point of it less than `pad` from the rectangle, and not wider or taller than that. */
  ghost predicate Pads(r: Rect, e: Rect, pad: real, v: Viewport) {
    && Contains(Whole(v), r) && r.width <= e.width + pad * 2.0 && r.height <= e.height + pad * 2.0
    && (forall x, y | Covers(Whole(v), x, y) && Near(e, pad, x, y) :: Covers(r, x, y))
  }

  predicate Near(e: Rect, pad: real, x: real, y: real) {
    e.x - pad <= x < e.x + e.width + pad && e.y - pad <= y < e.y + e.height + pad
  }

  /** Padding never loses the element nor leaves the viewport, however the padding is cut off at the edges. */
  lemma ExpandContains(e: Rect, pad: real, v: Viewport)
    requires HasArea(e) && Contains(Whole(v), e) && pad >= 0.0
    ensures Contains(Expand(e, pad, v), e) && Pads(Expand(e, pad, v), e, pad, v)
  {
  }

  // ------------------------------------------------------------------- the search

  /** The path to the first node with the reference, parents before children, children in order. */
  function PathTo(node: Node, reference: string): Option<seq<Node>>
    decreases node, 1, 0
  {
    if node.reference == reference then Some([node])
    else
      match PathAmong(node, 0, reference)
      case None => None
      case Some(p) => Some([node] + p)
  }

  /** The same among the children of a node, from the `i`-th on. */
  function PathAmong(node: Node, i: nat, reference: string): Option<seq<Node>>
    requires i <= |node.children|
    decreases node, 0, |node.children| - i
  {
    if i == |node.children| then None
    else
      match PathTo(node.children[i], reference)
      case Some(p) => Some(p)
      case None => PathAmong(node, i + 1, reference)
  }

  /** `find_semantic_path`: the stack of nodes being searched becomes the path. */
  method FindSemanticPath(node: Node, reference: string, path: seq<Node>) returns (found: bool, left: seq<Node>)
    ensures match PathTo(node, reference)
            case Some(p) => found && left == path + p
            case None => !found && left == path
    decreases node
  {
    left := path + [node];
    if node.reference == reference { return true, left; }
    for i := 0 to |node.children|
      invariant left == path + [node] && node.reference != reference
      invariant PathAmong(node, 0, reference) == PathAmong(node, i, reference)
    {
      found, left := FindSemanticPath(node.children[i], reference, left);
      if found {
        assert path + [node] + PathTo(node.children[i], reference).value
               == path + ([node] + PathTo(node.children[i], reference).value);
        return;
      }
    }
    left := left[..|left| - 1];
    found := false;
  }

  /** All nodes of a tree, parents before children, children in order. */
  function Preorder(node: Node): seq<Node>
    decreases node, 1, 0
  {
    [node] + PreorderFrom(node, 0)
  }

  function PreorderFrom(node: Node, i: nat): seq<Node>
    requires i <= |node.children|
    decreases node, 0, |node.children| - i
  {
    if i == |node.children| then [] else Preorder(node.children[i]) + PreorderFrom(node, i + 1)
  }

  /** The first node in a list with the reference. */
  predicate IsFirst(nodes: seq<Node>, reference: string, n: Node) {
    exists k :: 0 <= k < |nodes| && nodes[k] == n && n.reference == reference
                && forall j | 0 <= j < k :: nodes[j].reference != reference
  }

  predicate NoneHas(nodes: seq<Node>, reference: string) {
    forall j | 0 <= j < |nodes| :: nodes[j].reference != reference
  }

  /** Each node is a child of the one before. */
  predicate IsChain(p: seq<Node>) {
    forall i | 0 <= i < |p| - 1 :: p[i + 1] in p[i].children
  }

  lemma FirstInFront(a: seq<Node>, b: seq<Node>, reference: string, n: Node)
    requires IsFirst(a, reference, n)
    ensures IsFirst(a + b, reference, n)
  {
    var k :| 0 <= k < |a| && a[k] == n && n.reference == reference
             && forall j | 0 <= j < k :: a[j].reference != reference;
    assert (a + b)[k] == n;
    assert forall j | 0 <= j < k :: (a + b)[j] == a[j];
  }

  lemma FirstBehind(a: seq<Node>, b: seq<Node>, reference: string, n: Node)
    requires NoneHas(a, reference) && IsFirst(b, reference, n)
    ensures IsFirst(a + b, reference, n)
  {
    var k :| 0 <= k < |b| && b[k] == n && n.reference == reference
             && forall j | 0 <= j < k :: b[j].reference != reference;
    assert (a + b)[|a| + k] == n;
    assert forall j | 0 <= j < |a| + k :: (a + b)[j] == if j < |a| then a[j] else b[j - |a|];
  }

  /**
   * A path found is a chain from the root to the first node of the tree with the reference; none is
   * found only where no node has it.
   */
  lemma {:induction false} PathIsRootToNode(node: Node, reference: string)
    ensures match PathTo(node, reference)
            case Some(p) => p != [] && p[0] == node && IsChain(p) && IsFirst(Preorder(node), reference, p[|p| - 1])
            case None => NoneHas(Preorder(node), reference)
    decreases node, 1, 0
  {
    if node.reference == reference {
      assert Preorder(node)[0] == node;
    } else {
      PathAmongChildren(node, 0, reference);
      match PathAmong(node, 0, reference) {
        case Some(p) =>
          FirstBehind([node], PreorderFrom(node, 0), reference, p[|p| - 1]);
          assert forall i | 0 < i < |[node] + p| - 1 :: ([node] + p)[i] == p[i - 1] && ([node] + p)[i + 1] == p[i];
        case None =>
      }
    }
  }

  lemma {:induction false} PathAmongChildren(node: Node, i: nat, reference: string)
    requires i <= |node.children|
    ensures match PathAmong(node, i, reference)
            case Some(p) =>
              && p != [] && p[0] in node.children && IsChain(p)
              && IsFirst(PreorderFrom(node, i), reference, p[|p| - 1])
            case None => NoneHas(PreorderFrom(node, i), reference)
    decreases node, 0, |node.children| - i
  {
    if i < |node.children| {
      var child := node.children[i];
      PathIsRootToNode(child, reference);
      match PathTo(child, reference) {
        case Some(p) => FirstInFront(Preorder(child), PreorderFrom(node, i + 1), reference, p[|p| - 1]);
        case None =>
          PathAmongChildren(node, i + 1, reference);
          match PathAmong(node, i + 1, reference) {
            case Some(p) => FirstBehind(Preorder(child), PreorderFrom(node, i + 1), reference, p[|p| - 1]);
            case None =>
          }
      }
    }
  }

  // -------------------------------------------------------------------- ancestors

  /** What an ancestor contributes: its clipped rectangle and a name, or nothing. */
  type Offer = Option<(Rect, string)>

  function Around(n: Node, e: Rect, v: Viewport, name: string): Offer {
    if n.rect.None? then None
    else
      match Clip(n.rect.value, v)
      case None => None
      case Some(r) => if Contains(r, e) then Some((r, name)) else None
  }

  /** An ancestor of the same component as the target: by ownership if the target has any, else by source. */
  function ComponentOffer(target: Node, n: Node, e: Rect, v: Viewport): Offer {
    if target.ownership.Some? then
      if n.ownership.Some? && n.ownership.value.framework == target.ownership.value.framework
         && n.ownership.value.file == target.ownership.value.file
         && n.ownership.value.component == target.ownership.value.component
      then Around(n, e, v, target.ownership.value.component) else None
    else if target.source.Some? && target.source.value.Some? && n.source == target.source
    then Around(n, e, v, target.source.value.value) else None
  }

  function LowerChar(c: char): char { if 'A' <= c <= 'Z' then (c as int + 32) as char else c }

  function LowerAscii(s: string): string { seq(|s|, i requires 0 <= i < |s| => LowerChar(s[i])) }

  function Boundary(n: Node): Option<string> {
    var tag := LowerAscii(n.tag);
    if tag in {"section", "main", "article", "nav", "aside", "form"} then Some("tag:" + tag)
    else if n.role.None? then None
    else
      var role := LowerAscii(n.role.value);
      if role in {"region", "main", "navigation", "complementary", "form"} then Some("role:" + role) else None
  }

  function SectionOffer(n: Node, e: Rect, v: Viewport): Offer {
    match Boundary(n)
    case None => None
    case Some(b) => Around(n, e, v, b)
  }

  datatype Owner = Owner(node: Node, rect: Rect, name: string)

  /** The nearest proper ancestor with an offer. */
  predicate Nearest(path: seq<Node>, offer: Node -> Offer, found: Option<Owner>) {
    match found
    case None => forall i | 0 <= i < |path| - 1 :: offer(path[i]).None?
    case Some(o) =>
      exists i :: 0 <= i < |path| - 1 && path[i] == o.node && offer(path[i]) == Some((o.rect, o.name))
                  && forall j | i < j < |path| - 1 :: offer(path[j]).None?
  }

  method FindAncestor(path: seq<Node>, offer: Node -> Offer) returns (found: Option<Owner>)
    requires path != []
    ensures Nearest(path, offer, found)
  {
    for i := |path| - 1 downto 0
      invariant forall j | i <= j < |path| - 1 :: offer(path[j]).None?
    {
      var o := offer(path[i]);
      if o.Some? {
        found := Some(Owner(path[i], o.value.0, o.value.1));
        return;
      }
    }
    found := None;
  }

  // ---------------------------------------------------------------------- targets

  /** Push unless a target with the same rectangle is already listed. */
  function PushUnique(targets: seq<Target>, t: Target): seq<Target> {
    if exists i :: 0 <= i < |targets| && targets[i].rect == t.rect then targets else targets + [t]
  }

  function ElementOf(target: Node, e: Rect, v: Viewport): Target {
    Target(ElementTarget, Expand(e, 120.0, v), StableElementRef(target.reference), 1000)
  }

  function ComponentOf(o: Owner): Target {
    Target(ComponentTarget, o.rect, SourceComponent(o.name, o.node.reference), 950)
  }

  function SectionOf(o: Owner): Target { Target(SectionTarget, o.rect, SemanticSection(o.node.reference, o.name), 850) }

  function ViewportOf(v: Viewport): Target { Target(ViewportTarget, Whole(v), ViewportFallback, 1000) }

  function Listed(target: Node, e: Rect, v: Viewport, component: Option<Owner>, section: Option<Owner>): seq<Target> {
    var one := [ElementOf(target, e, v)];
    var two := if component.Some? then PushUnique(one, ComponentOf(component.value)) else one;
    var three := if section.Some? then PushUnique(two, SectionOf(section.value)) else two;
    three + [ViewportOf(v)]
  }

  ghost predicate PlansWith(path: seq<Node>, e: Rect, v: Viewport, targets: seq<Target>, component: Option<Owner>,
                            section: Option<Owner>) {
    && path != []
    && Nearest(path, n => ComponentOffer(path[|path| - 1], n, e, v), component)
    && Nearest(path, n => SectionOffer(n, e, v), section)
    && targets == Listed(path[|path| - 1], e, v, component, section)
  }

  /** The plan for a target found at the end of `path`, its visible part being `e`. */
  ghost predicate Plans(path: seq<Node>, e: Rect, v: Viewport, targets: seq<Target>) {
    exists component, section :: PlansWith(path, e, v, targets, component, section)
  }

  function VisiblePart(n: Node, v: Viewport): Option<Rect> { if n.rect.None? then None else Clip(n.rect.value, v) }

  method PushUniqueTarget(targets: seq<Target>, t: Target) returns (r: seq<Target>)
    ensures r == PushUnique(targets, t)
  {
    for i := 0 to |targets|
      invariant forall j | 0 <= j < i :: targets[j].rect != t.rect
    {
      if targets[i].rect == t.rect { return targets; }
    }
    return targets + [t];
  }

  /** `resolve_progressive_targets` */
  method ResolveProgressiveTargets(root: Node, v: Viewport, reference: string) returns (r: Result<seq<Target>, Refusal>)
    ensures if v.width == 0 || v.height == 0 then r == Err(InvalidViewport)
            else match PathTo(root, reference)
                 case None => r == Err(ReferenceNotFound)
                 case Some(path) =>
                   path != [] &&
                   (match VisiblePart(path[|path| - 1], v)
                    case None => r == Err(InvalidElementGeometry)
                    case Some(e) => r.Ok? && Plans(path, e, v, r.value))
  {
    hide VisiblePart, ComponentOffer, SectionOffer, PathTo, IsChain, IsFirst;
    if v.width == 0 || v.height == 0 { return Err(InvalidViewport); }
    PathIsRootToNode(root, reference);
    var found, path := FindSemanticPath(root, reference, []);
    if !found { return Err(ReferenceNotFound); }
    assert [] + PathTo(root, reference).value == PathTo(root, reference).value;
    var target := path[|path| - 1];
    var visible := VisiblePart(target, v);
    if visible.None? { return Err(InvalidElementGeometry); }
    var e := visible.value;
    var component := FindAncestor(path, n => ComponentOffer(target, n, e, v));
    var section := FindAncestor(path, n => SectionOffer(n, e, v));
    var targets := [ElementOf(target, e, v)];
    if component.Some? { targets := PushUniqueTarget(targets, ComponentOf(component.value)); }
    if section.Some? { targets := PushUniqueTarget(targets, SectionOf(section.value)); }
    targets := targets + [ViewportOf(v)];
    assert PlansWith(path, e, v, targets, component, section);
    return Ok(targets);
  }

  predicate DistinctRects(targets: seq<Target>) {
    forall i, j | 0 <= i < j < |targets| :: targets[i].rect != targets[j].rect
  }

  predicate Surrounds(r: Rect, e: Rect, v: Viewport) { Contains(r, e) && Contains(Whole(v), r) }

  lemma AroundSurrounds(n: Node, e: Rect, v: Viewport, name: string)
    ensures Around(n, e, v, name).Some? ==> Surrounds(Around(n, e, v, name).value.0, e, v)
  {
  }

  lemma ComponentSurrounds(path: seq<Node>, target: Node, e: Rect, v: Viewport, found: Option<Owner>)
    requires Nearest(path, n => ComponentOffer(target, n, e, v), found) && found.Some?
    ensures Surrounds(found.value.rect, e, v)
  {
    var o := found.value;
    AroundSurrounds(o.node, e, v, o.name);
    assert ComponentOffer(target, o.node, e, v) == Some((o.rect, o.name));
  }

  lemma SectionSurrounds(path: seq<Node>, e: Rect, v: Viewport, found: Option<Owner>)
    requires Nearest(path, n => SectionOffer(n, e, v), found) && found.Some?
    ensures Surrounds(found.value.rect, e, v)
  {
    var o := found.value;
    AroundSurrounds(o.node, e, v, o.name);
    assert SectionOffer(o.node, e, v) == Some((o.rect, o.name));
  }

  lemma PushKeeps(targets: seq<Target>, t: Target)
    requires DistinctRects(targets)
    ensures DistinctRects(PushUnique(targets, t)) && |targets| <= |PushUnique(targets, t)| <= |targets| + 1
    ensures forall x | x in PushUnique(targets, t) :: x in targets || x == t
    ensures targets != [] ==> PushUnique(targets, t)[0] == targets[0]
  {
  }

  lemma ListedIsSound(target: Node, e: Rect, v: Viewport, component: Option<Owner>, section: Option<Owner>)
    requires HasArea(e) && Contains(Whole(v), e)
    requires component.Some? ==> Surrounds(component.value.rect, e, v)
    requires section.Some? ==> Surrounds(section.value.rect, e, v)
    ensures var targets := Listed(target, e, v, component, section);
            && 2 <= |targets| <= 4 && targets[|targets| - 1] == ViewportOf(v) && targets[0].kind == ElementTarget
            && DistinctRects(targets[..|targets| - 1])
            && (forall t | t in targets :: Surrounds(t.rect, e, v))
  {
    ExpandContains(e, 120.0, v);
    var one := [ElementOf(target, e, v)];
    var two := if component.Some? then PushUnique(one, ComponentOf(component.value)) else one;
    if component.Some? { PushKeeps(one, ComponentOf(component.value)); }
    var three := if section.Some? then PushUnique(two, SectionOf(section.value)) else two;
    if section.Some? { PushKeeps(two, SectionOf(section.value)); }
    assert (three + [ViewportOf(v)])[..|three|] == three;
  }

  lemma VisibleIsInside(n: Node, v: Viewport)
    ensures VisiblePart(n, v).Some? ==> HasArea(VisiblePart(n, v).value) && Contains(Whole(v), VisiblePart(n, v).value)
  {
  }

  /**
   * Between two and four targets, ending with the viewport; the ones before
   * it have rectangles of their own, and every one lies in the viewport and
   * contains the whole visible part of the element.
   */
  lemma PlanIsSound(path: seq<Node>, e: Rect, v: Viewport, targets: seq<Target>)
    requires Plans(path, e, v, targets) && VisiblePart(path[|path| - 1], v) == Some(e)
    ensures 2 <= |targets| <= 4 && targets[|targets| - 1] == ViewportOf(v) && targets[0].kind == ElementTarget
    ensures DistinctRects(targets[..|targets| - 1])
    ensures forall t | t in targets :: Surrounds(t.rect, e, v)
  {
    var target := path[|path| - 1];
    var component, section :| PlansWith(path, e, v, targets, component, section);
    if component.Some? { ComponentSurrounds(path, target, e, v, component); }
    if section.Some? { SectionSurrounds(path, e, v, section); }
    VisibleIsInside(target, v);
    ListedIsSound(target, e, v, component, section);
  }

  // ------------------------------------------------------------- which owners are listed

  const SECTION_TAGS := {"section", "main", "article", "nav", "aside", "form"}
  const SECTION_ROLES := {"region", "main", "navigation", "complementary", "form"}

  /** The word but for the case of ASCII letters; the word itself has no capitals. */
  predicate Spells(s: string, word: string) {
    && |s| == |word|
    && forall i | 0 <= i < |s| :: s[i] == word[i] || ('A' <= s[i] <= 'Z' && s[i] as int + 32 == word[i] as int)
  }

  predicate Small(word: string) { forall i | 0 <= i < |word| :: !('A' <= word[i] <= 'Z') }

  lemma LowerSpells(s: string, word: string)
    requires Small(word)
    ensures LowerAscii(s) == word <==> Spells(s, word)
  {
    if Spells(s, word) { assert forall i | 0 <= i < |s| :: LowerAscii(s)[i] == word[i]; }
    if LowerAscii(s) == word { assert forall i | 0 <= i < |s| :: word[i] == LowerChar(s[i]); }
  }

  /** The node bounds a section for its tag, or else for its role. */
  ghost predicate IsSection(n: Node, name: string) {
    || (exists w | w in SECTION_TAGS :: Spells(n.tag, w) && name == "tag:" + w)
    || ((forall w | w in SECTION_TAGS :: !Spells(n.tag, w))
        && n.role.Some? && exists w | w in SECTION_ROLES :: Spells(n.role.value, w) && name == "role:" + w)
  }

  lemma BoundaryIsSection(n: Node, name: string)
    ensures Boundary(n) == Some(name) <==> IsSection(n, name)
  {
    forall w | w in SECTION_TAGS ensures LowerAscii(n.tag) == w <==> Spells(n.tag, w) { LowerSpells(n.tag, w); }
    if n.role.Some? {
      forall w | w in SECTION_ROLES ensures LowerAscii(n.role.value) == w <==> Spells(n.role.value, w) {
        LowerSpells(n.role.value, w);
      }
    }
  }

  /** The name of the component a node is of: by ownership, or else by source. */
  function ComponentName(n: Node): Option<string> {
    if n.ownership.Some? then Some(n.ownership.value.component) else if n.source.Some? then n.source.value else None
  }

  /** The same owner, or where the target has none, the same source. */
  predicate SameComponent(target: Node, n: Node) {
    && ComponentName(target).Some?
    && (if target.ownership.Some? then n.ownership == target.ownership else n.source == target.source)
  }

  predicate Encloses(n: Node, e: Rect) { n.rect.Some? && Contains(n.rect.value, e) }

  /** What an offer has to be: the visible part of a node that fits, with the name. */
  ghost predicate IsOffer(o: Offer, fits: bool, n: Node, v: Viewport, named: bool) {
    && (o.Some? <==> fits)
    && (o.Some? ==> named && n.rect.Some? && Clip(n.rect.value, v) == Some(o.value.0))
  }

  lemma AroundEncloses(n: Node, e: Rect, v: Viewport, name: string)
    requires HasArea(e) && Contains(Whole(v), e)
    ensures var o := Around(n, e, v, name); IsOffer(o, Encloses(n, e), n, v, o.Some? && o.value.1 == name)
  {
  }

  lemma ComponentOffers(target: Node, n: Node, e: Rect, v: Viewport)
    requires HasArea(e) && Contains(Whole(v), e)
    ensures var o := ComponentOffer(target, n, e, v);
            IsOffer(o, SameComponent(target, n) && Encloses(n, e), n, v,
                    o.Some? && ComponentName(target) == Some(o.value.1))
  {
    hide Around, Clip, Encloses;
    if SameComponent(target, n) { AroundEncloses(n, e, v, ComponentName(target).value); }
  }

  lemma SectionOffers(n: Node, e: Rect, v: Viewport)
    requires HasArea(e) && Contains(Whole(v), e)
    ensures var o := SectionOffer(n, e, v);
            IsOffer(o, (exists name :: IsSection(n, name)) && Encloses(n, e), n, v, o.Some? && IsSection(n, o.value.1))
  {
    hide Around, Clip, Encloses, Boundary, IsSection;
    forall name: string ensures Boundary(n) == Some(name) <==> IsSection(n, name) { BoundaryIsSection(n, name); }
    if Boundary(n).Some? { AroundEncloses(n, e, v, Boundary(n).value); }
  }

  /** The last proper ancestor in the path that fits. */
  ghost predicate LastFitting(path: seq<Node>, fits: Node -> bool, n: Option<Node>) {
    match n
    case None => forall i | 0 <= i < |path| - 1 :: !fits(path[i])
    case Some(m) =>
      exists i :: 0 <= i < |path| - 1 && path[i] == m && fits(m) && forall j | i < j < |path| - 1 :: !fits(path[j])
  }

  /** The owner found is the last fitting ancestor, with its visible part as rectangle. */
  ghost predicate Owns(path: seq<Node>, fits: Node -> bool, v: Viewport, found: Option<Owner>) {
    && LastFitting(path, fits, if found.None? then None else Some(found.value.node))
    && (found.Some? ==> found.value.node.rect.Some? && Clip(found.value.node.rect.value, v) == Some(found.value.rect))
  }

  lemma ComponentIsLast(path: seq<Node>, target: Node, e: Rect, v: Viewport, found: Option<Owner>)
    requires HasArea(e) && Contains(Whole(v), e)
    requires Nearest(path, n => ComponentOffer(target, n, e, v), found)
    ensures Owns(path, n => SameComponent(target, n) && Encloses(n, e), v, found)
    ensures found.Some? ==> ComponentName(target) == Some(found.value.name)
  {
    hide ComponentOffer, SameComponent, Clip, Encloses;
    forall n: Node
      ensures ComponentOffer(target, n, e, v).Some? <==> SameComponent(target, n) && Encloses(n, e)
    {
      ComponentOffers(target, n, e, v);
    }
    if found.Some? { ComponentOffers(target, found.value.node, e, v); }
  }

  lemma SectionIsLast(path: seq<Node>, e: Rect, v: Viewport, found: Option<Owner>)
    requires HasArea(e) && Contains(Whole(v), e)
    requires Nearest(path, n => SectionOffer(n, e, v), found)
    ensures Owns(path, n => (exists name :: IsSection(n, name)) && Encloses(n, e), v, found)
    ensures found.Some? ==> IsSection(found.value.node, found.value.name)
  {
    hide SectionOffer, IsSection, Clip, Encloses;
    forall n: Node
      ensures SectionOffer(n, e, v).Some? <==> (exists name :: IsSection(n, name)) && Encloses(n, e)
    {
      SectionOffers(n, e, v);
    }
    if found.Some? { SectionOffers(found.value.node, e, v); }
  }

  /** The target is listed, or left out because one before it has its rectangle. */
  predicate Adds(before: seq<Target>, t: Option<Target>, added: seq<Target>) {
    added == if t.None? || exists i :: 0 <= i < |before| && before[i].rect == t.value.rect then [] else [t.value]
  }

  lemma PushAdds(before: seq<Target>, t: Target) returns (added: seq<Target>)
    ensures PushUnique(before, t) == before + added && Adds(before, Some(t), added)
  {
    added := PushUnique(before, t)[|before|..];
  }

  lemma ListedIsAdded(target: Node, e: Rect, v: Viewport, component: Option<Owner>, section: Option<Owner>,
                      second: seq<Target>, third: seq<Target>)
    requires var one := [ElementOf(target, e, v)];
             && one + second == (if component.Some? then PushUnique(one, ComponentOf(component.value)) else one)
             && one + second + third
                == (if section.Some? then PushUnique(one + second, SectionOf(section.value)) else one + second)
    ensures var targets := Listed(target, e, v, component, section);
            && targets == [ElementOf(target, e, v)] + second + third + [ViewportOf(v)]
            && targets[..1] == [ElementOf(target, e, v)]
  {
    hide PushUnique, ElementOf, ComponentOf, SectionOf, ViewportOf;
  }

  /**
   * The plan is the padded element, the nearest enclosing ancestor of the
   * same component, the nearest enclosing section and the viewport, each
   * under its own name and in this order; only an owner whose rectangle is
   * listed before is left out.
   */
  lemma PlanIsComplete(path: seq<Node>, e: Rect, v: Viewport, targets: seq<Target>)
    returns (component: Option<Owner>, section: Option<Owner>, second: seq<Target>, third: seq<Target>)
    requires Plans(path, e, v, targets) && VisiblePart(path[|path| - 1], v) == Some(e)
    ensures targets != []
    ensures targets == targets[..1] + second + third + [Target(ViewportTarget, Whole(v), ViewportFallback, 1000)]
    ensures var target := path[|path| - 1];
            && targets[0] == Target(ElementTarget, targets[0].rect, StableElementRef(target.reference), 1000)
            && Pads(targets[0].rect, e, 120.0, v)
            && Owns(path, n => SameComponent(target, n) && Encloses(n, e), v, component)
            && Adds(targets[..1], if component.None? then None else
                    Some(Target(ComponentTarget, component.value.rect,
                                SourceComponent(component.value.name, component.value.node.reference), 950)), second)
            && (component.Some? ==> ComponentName(target) == Some(component.value.name))
    ensures Owns(path, n => (exists name :: IsSection(n, name)) && Encloses(n, e), v, section)
            && Adds(targets[..1] + second, if section.None? then None else
                    Some(Target(SectionTarget, section.value.rect,
                                SemanticSection(section.value.node.reference, section.value.name), 850)), third)
            && (section.Some? ==> IsSection(section.value.node, section.value.name))
  {
    hide Owns, IsSection, ComponentOffer, SectionOffer, SameComponent, Encloses, Clip, Nearest;
    var target := path[|path| - 1];
    component, section :| PlansWith(path, e, v, targets, component, section);
    VisibleIsInside(target, v);
    ExpandContains(e, 120.0, v);
    ComponentIsLast(path, target, e, v, component);
    SectionIsLast(path, e, v, section);
    var one := [ElementOf(target, e, v)];
    second := [];
    if component.Some? { second := PushAdds(one, ComponentOf(component.value)); }
    third := [];
    if section.Some? { third := PushAdds(one + second, SectionOf(section.value)); }
    ListedIsAdded(target, e, v, component, section, second, third);
  }
}
