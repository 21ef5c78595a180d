/**
 * Payload-bearing managed actions: the text, key or scroll of an action stays
 * in the process, the journal binds only a keyed commitment to its bytes.
 */
module ManagedPayload {
  import opened Common
  import Utf8

  type Bytes = seq<nat>

  datatype Kind =
    | Click
    | Focus
    | TypeText(text: string, clearFirst: bool)
    | Key(key: string, modifiers: seq<string>)
    | Scroll(x: real, y: real)
    | Snapshot
    | InternalCapture

  datatype Operation = Activate | FocusOp | InputText | KeyInput | ScrollOp | SnapshotOp

  function OperationOf(k: Kind): Option<Operation> {
    match k
    case Click => Some(Activate)
    case Focus => Some(FocusOp)
    case TypeText(_, _) => Some(InputText)
    case Key(_, _) => Some(KeyInput)
    case Scroll(_, _) => Some(ScrollOp)
    case Snapshot => Some(SnapshotOp)
    case InternalCapture => None
  }

  predicate CarriesPayload(op: Operation) { op.InputText? || op.KeyInput? || op.ScrollOp? }

  /** Wire encoding of actions. Nothing is assumed of it: decoding need not undo encoding. */
  datatype Codec = Codec(encode: Kind -> Option<Bytes>, decode: Bytes -> Option<Kind>)

  const MAX_TYPE_BYTES := 16 * 1024
  const MAX_KEY_BYTES := 256
  const MAX_MODIFIERS := 8
  const MAX_MODIFIER_BYTES := 64
  const MAX_SCROLL_DELTA := 100000.0

  predicate BoundedText(s: string, limit: nat) { |Utf8.Encode(s)| <= limit && '\0' !in s }

  predicate WithinDelta(v: real) { -MAX_SCROLL_DELTA <= v <= MAX_SCROLL_DELTA }

  /** `validate_materialized_payload_action` */
  predicate Acceptable(k: Kind) {
    match k
    case Click => true
    case Focus => true
    case TypeText(text, _) => BoundedText(text, MAX_TYPE_BYTES)
    case Key(key, modifiers) =>
      && key != "" && BoundedText(key, MAX_KEY_BYTES) && |modifiers| <= MAX_MODIFIERS
      && (forall m | m in modifiers :: m != "" && BoundedText(m, MAX_MODIFIER_BYTES))
    case Scroll(x, y) => WithinDelta(x) && WithinDelta(y) && (x != 0.0 || y != 0.0)
    case _ => false
  }

  /** So many bytes of UTF-8, and none of them zero. */
  predicate FitsIn(s: string, limit: nat) {
    var bytes := Utf8.Encode(s);
    |bytes| <= limit && 0 !in bytes
  }

  lemma {:induction false} ZeroIsNul(s: string)
    ensures 0 in Utf8.Encode(s) <==> '\0' in s
  {
    if s != "" {
      ZeroIsNul(s[1..]);
      assert s == [s[0]] + s[1..];
    }
  }

  /**
   * Clicks and focus always; text, a key and its modifiers by their bytes;
   * a scroll within bounds that goes somewhere; and nothing else.
   */
  lemma AcceptedIsExact(k: Kind)
    ensures Acceptable(k) <==>
              || k in {Click, Focus}
              || (k.TypeText? && FitsIn(k.text, 16384))
              || (k.Key? && "" !in [k.key] + k.modifiers && FitsIn(k.key, 256) && |k.modifiers| < 9
                  && forall m | m in k.modifiers :: FitsIn(m, 64))
              || (k.Scroll? && -100000.0 <= k.x <= 100000.0 && -100000.0 <= k.y <= 100000.0 && (k.x, k.y) != (0.0, 0.0))
  {
    forall s: string ensures 0 in Utf8.Encode(s) <==> '\0' in s { ZeroIsNul(s); }
  }

  datatype Payload = Payload(ref: Uuid, bytes: Bytes)

  /** The payload-free action that travels until the confirmed payload replaces it. */
  function Carrier(k: Kind): Kind {
    match k
    case TypeText(_, clearFirst) => TypeText("", clearFirst)
    case Key(_, _) => Key("", [])
    case Scroll(_, _) => Scroll(0.0, 0.0)
    case _ => k
  }

  /** `prepare_managed_action`: refuse, or split an action into carrier and payload. */
  function Prepare(codec: Codec, k: Kind, minted: Uuid): Option<(Kind, Option<Payload>)> {
    if !Acceptable(k) then None
    else if k.Click? || k.Focus? then Some((k, None))
    else match codec.encode(k)
         case None => None
         case Some(bytes) => Some((Carrier(k), Some(Payload(minted, bytes))))
  }

  /**
   * The keyed commitment of a payload: an injective function of the key and
   * of everything fed to the MAC.
   */
  datatype Digest = Digest(key: Uuid, action: Uuid, ref: Uuid, operation: Operation, length: nat, bytes: Bytes)

  datatype Binding = Binding(action: Uuid, ref: Uuid, operation: Operation, length: nat, digest: Digest)

  function Bind(key: Uuid, action: Uuid, op: Operation, p: Payload): Binding {
    Binding(action, p.ref, op, |p.bytes|, Digest(key, action, p.ref, op, |p.bytes|, p.bytes))
  }

  /** `verify_managed_web_payload_binding` */
  predicate Verifies(key: Uuid, b: Binding, bytes: Bytes) {
    && CarriesPayload(b.operation)
    && b.length == |bytes|
    && b.digest == Digest(key, b.action, b.ref, b.operation, b.length, bytes)
  }

  /** `materialize_verified_managed_payload` */
  function Materialize(codec: Codec, key: Option<Uuid>, b: Option<Binding>, p: Payload): Option<Kind> {
    if key.None? || b.None? || b.value.ref != p.ref || !Verifies(key.value, b.value, p.bytes) then None
    else
      match codec.decode(p.bytes)
      case None => None
      case Some(k) =>
        if OperationOf(k) == Some(b.value.operation) && Acceptable(k) then Some(k) else None
  }

  /**
   * The round trip of a payload: where decoding undoes encoding, the action
   * that was split at plan time is the one that comes back under its binding
   * and key, and it passes the check at dispatch.
   */
  lemma PayloadComesBack(codec: Codec, k: Kind, minted: Uuid, key: Uuid, a: Uuid)
    requires Prepare(codec, k, minted).Some? && Prepare(codec, k, minted).value.1.Some?
    requires codec.encode(k).Some? && codec.decode(codec.encode(k).value) == Some(k)
    ensures var (carrier, payload) := Prepare(codec, k, minted).value;
            && OperationOf(carrier) == OperationOf(k) && OperationOf(k).Some? && CarriesPayload(OperationOf(k).value)
            && var binding := Bind(key, a, OperationOf(k).value, payload.value);
            && Materialize(codec, Some(key), Some(binding), payload.value) == Some(k)
            && VerifiedAtDispatch(codec, Some(key), Some(binding), k)
  {
  }

  /** `verify_managed_payload_at_dispatch` */
  predicate VerifiedAtDispatch(codec: Codec, key: Option<Uuid>, b: Option<Binding>, k: Kind) {
    k.Click? || k.Focus? ||
    (&& Acceptable(k)
     && key.Some? && b.Some?
     && OperationOf(k) == Some(b.value.operation)
     && codec.encode(k).Some?
     && Verifies(key.value, b.value, codec.encode(k).value))
  }

  /** The binding is the one made, under this key, of this payload as an action of this kind. */
  predicate IsBoundTo(key: Option<Uuid>, b: Option<Binding>, k: Kind, p: Payload) {
    && key.Some? && b.Some? && (k.TypeText? || k.Key? || k.Scroll?)
    && b.value == Bind(key.value, b.value.action, OperationOf(k).value, p)
  }

  /**
   * A payload is put together again exactly as the acceptable action it
   * decodes to under its own binding; an action is let through at dispatch
   * exactly if it carries no payload, or is acceptable and its own encoding is
   * what was bound.
   */
  lemma BindingDecides(codec: Codec, key: Option<Uuid>, b: Option<Binding>, p: Payload, k: Kind)
    ensures Materialize(codec, key, b, p) == Some(k) <==>
              codec.decode(p.bytes) == Some(k) && Acceptable(k) && IsBoundTo(key, b, k, p)
    ensures VerifiedAtDispatch(codec, key, b, k) <==>
              || k in {Click, Focus}
              || (Acceptable(k) && codec.encode(k).Some? && b.Some?
                  && IsBoundTo(key, b, k, Payload(b.value.ref, codec.encode(k).value)))
  {
    hide Acceptable;
  }
}
