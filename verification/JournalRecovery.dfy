/**
 * The journal on disk: one encoded entry per line, an incomplete last line cut
 * off on loading, everything else validated again as it is replayed.
 */
module JournalRecovery {
  import opened Common
  import opened Journal

  type Byte = nat

  const NEWLINE: Byte := 10

  predicate Unbroken(bytes: seq<Byte>) { forall i | 0 <= i < |bytes| :: bytes[i] != NEWLINE }

  /** The JSON line encoding of entries. */
  datatype LineCodec = LineCodec(encode: Entry -> seq<Byte>, decode: seq<Byte> -> Option<Entry>)

  /** What is assumed of it: a line is never empty, holds no newline, and decodes to the entry it encodes. */
  ghost predicate Faithful(c: LineCodec) {
    forall e: Entry :: c.encode(e) != [] && Unbroken(c.encode(e)) && c.decode(c.encode(e)) == Some(e)
  }

  function Line(c: LineCodec, e: Entry): seq<Byte> { c.encode(e) + [NEWLINE] }

  function File(c: LineCodec, es: seq<Entry>): seq<Byte> {
    if es == [] then [] else Line(c, es[0]) + File(c, es[1..])
  }

  /** May this entry come next? */
  predicate Continues(es: seq<Entry>, e: Entry) {
    e.sequence == |es| + 1 && Allowed(es, e.action, e.transition, Replay)
  }

  function FirstNewline(bytes: seq<Byte>): (k: nat)
    requires !Unbroken(bytes)
    ensures k < |bytes| && bytes[k] == NEWLINE && Unbroken(bytes[..k])
  {
    if bytes[0] == NEWLINE then 0
    else
      var k := 1 + FirstNewline(bytes[1..]);
      assert bytes[..k] == [bytes[0]] + bytes[1..][..k - 1];
      k
  }

  /** The entry of a line, if it is one that may follow. */
  function Next(c: LineCodec, line: seq<Byte>, done: seq<Entry>): Option<Entry> {
    if line == [] then None
    else match c.decode(line)
         case None => None
         case Some(e) => if Continues(done, e) then Some(e) else None
  }

  /** Replay whole lines on top of `done`; what follows the last newline is ignored. */
  function Replayed(c: LineCodec, bytes: seq<Byte>, done: seq<Entry>): Option<seq<Entry>>
    decreases |bytes|
  {
    if Unbroken(bytes) then Some(done)
    else
      var k := FirstNewline(bytes);
      var e := Next(c, bytes[..k], done);
      if e.None? then None else Replayed(c, bytes[k + 1..], done + [e.value])
  }

  /** Just past the last newline. */
  function DurableLength(bytes: seq<Byte>): (n: nat)
    ensures n <= |bytes| && Unbroken(bytes[n..]) && (n > 0 ==> bytes[n - 1] == NEWLINE)
  {
    if bytes == [] || bytes[|bytes| - 1] == NEWLINE then |bytes|
    else
      var n := DurableLength(bytes[..|bytes| - 1]);
      assert bytes[n..] == bytes[..|bytes| - 1][n..] + [bytes[|bytes| - 1]];
      n
  }

  lemma DurableStep(file: seq<Byte>, durable: nat)
    requires durable <= |file|
    ensures durable == 0 || file[durable - 1] == NEWLINE ==> DurableLength(file[..durable]) == durable
    ensures durable > 0 && file[durable - 1] != NEWLINE ==>
              DurableLength(file[..durable]) == DurableLength(file[..durable - 1])
  {
    if durable > 0 { assert file[..durable][..durable - 1] == file[..durable - 1]; }
  }

  /** The search for the last newline. */
  method FindDurableLength(file: seq<Byte>) returns (durable: nat)
    ensures durable == DurableLength(file)
  {
    hide DurableLength;
    durable := |file|;
    assert file[..durable] == file;
    while durable > 0 && file[durable - 1] != NEWLINE
      invariant durable <= |file| && DurableLength(file) == DurableLength(file[..durable])
    {
      DurableStep(file, durable);
      durable := durable - 1;
    }
    DurableStep(file, durable);
  }

  lemma CutLine(bytes: seq<Byte>, from: nat, i: nat)
    requires from <= i < |bytes|
    ensures bytes[from..] == bytes[from..i] + [bytes[i]] + bytes[i + 1..]
  {
  }

  /** Decode the line from `start` up to the newline at `i`, validate it and push its entry. */
  method LoadLine(c: LineCodec, bytes: seq<Byte>, start: nat, i: nat, done: seq<Entry>)
    returns (more: Option<seq<Entry>>)
    requires start <= i < |bytes| && bytes[i] == NEWLINE && Unbroken(bytes[start..i])
    ensures Replayed(c, bytes[start..], done) == if more.None? then None else Replayed(c, bytes[i + 1..], more.value)
  {
    var line := bytes[start..i];
    CutLine(bytes, start, i);
    ReplaysLine(c, bytes[start..], done, line, bytes[i + 1..]);
    if line == [] { return None; }
    var e := c.decode(line);
    if e.None? || !Continues(done, e.value) { return None; }
    return Some(done + [e.value]);
  }

  lemma StillUnbroken(bytes: seq<Byte>, start: nat, i: nat)
    requires start <= i < |bytes| && Unbroken(bytes[start..i])
    ensures bytes[i] != NEWLINE ==> Unbroken(bytes[start..i + 1])
    ensures Unbroken(bytes[i + 1..i + 1])
  {
    assert bytes[start..i + 1] == bytes[start..i] + [bytes[i]];
  }

  method LoadLines(c: LineCodec, bytes: seq<Byte>) returns (loaded: Option<seq<Entry>>)
    ensures loaded == Replayed(c, bytes, [])
  {
    loaded := Some([]);
    var start := 0;
    assert bytes[0..] == bytes;
    for i := 0 to |bytes|
      invariant start <= i && Unbroken(bytes[start..i])
      invariant loaded.Some? && Replayed(c, bytes, []) == Replayed(c, bytes[start..], loaded.value)
    {
      StillUnbroken(bytes, start, i);
      if bytes[i] == NEWLINE {
        loaded := LoadLine(c, bytes, start, i, loaded.value);
        if loaded.None? { return; }
        start := i + 1;
      }
    }
    assert bytes[start..|bytes|] == bytes[start..];
  }

  /** `load_and_repair`: truncate the torn tail, then decode and validate line by line. */
  method LoadAndRepair(c: LineCodec, file: seq<Byte>) returns (durable: nat, loaded: Option<seq<Entry>>)
    ensures durable == DurableLength(file)
    ensures loaded == Replayed(c, file[..durable], [])
  {
    durable := FindDurableLength(file);
    loaded := LoadLines(c, file[..durable]);
  }

  lemma {:induction false} ReplaysLine(c: LineCodec, bytes: seq<Byte>, done: seq<Entry>, line: seq<Byte>,
                                       rest: seq<Byte>)
    requires bytes == line + [NEWLINE] + rest && Unbroken(line)
    ensures Replayed(c, bytes, done) ==
            (var e := Next(c, line, done);
             if e.None? then None else Replayed(c, rest, done + [e.value]))
  {
    assert bytes[..|line|] == line && bytes[|line|] == NEWLINE && bytes[|line| + 1..] == rest;
    FirstNewlineIs(bytes, |line|);
  }

  lemma {:induction false} FirstNewlineIs(bytes: seq<Byte>, k: nat)
    requires k < |bytes| && bytes[k] == NEWLINE && Unbroken(bytes[..k])
    ensures FirstNewline(bytes) == k
  {
    var f := FirstNewline(bytes);
    assert forall i | 0 <= i < k :: bytes[..k][i] == bytes[i];
    assert forall i | 0 <= i < f :: bytes[..f][i] == bytes[i];
  }

  // ---------------------------------------------------------------- properties

  /** Whatever bytes are on disk, what loads is a history, and it numbers its entries from one. */
  lemma {:induction false} LoadedIsHistory(c: LineCodec, bytes: seq<Byte>, done: seq<Entry>)
    requires History(done, Replay)
    ensures Replayed(c, bytes, done).Some? ==> History(Replayed(c, bytes, done).value, Replay)
    decreases |bytes|
  {
    if !Unbroken(bytes) {
      var k := FirstNewline(bytes);
      var e := Next(c, bytes[..k], done);
      if e.Some? {
        HistoryAppend(done, e.value, Replay);
        LoadedIsHistory(c, bytes[k + 1..], done + [e.value]);
      }
    }
  }

  /** What was accepted when it was written is accepted when it is replayed. */
  lemma {:induction false} AppendedReplays(es: seq<Entry>)
    requires History(es, Append)
    ensures History(es, Replay)
  {
    if es != [] { AppendedReplays(es[..|es| - 1]); }
  }

  lemma {:induction false} HistoryAt(es: seq<Entry>, i: nat, mode: Mode)
    requires History(es, mode) && i < |es|
    ensures es[i].sequence == i + 1 && Allowed(es[..i], es[i].action, es[i].transition, mode)
  {
    var n := |es| - 1;
    if i < n {
      HistoryAt(es[..n], i, mode);
      assert es[..n][..i] == es[..i];
    }
  }

  /** Replaying the lines of a history comes to the rest of the file with the whole history done. */
  lemma {:induction false} LinesReplay(c: LineCodec, es: seq<Entry>, done: nat, rest: seq<Byte>)
    requires Faithful(c) && History(es, Replay) && done <= |es|
    ensures Replayed(c, File(c, es[done..]) + rest, es[..done]) == Replayed(c, rest, es)
    decreases |es| - done
  {
    if done == |es| {
      assert es[done..] == [] && es[..done] == es && [] + rest == rest;
    } else {
      var e := es[done];
      var after := File(c, es[done..][1..]);
      assert File(c, es[done..]) + rest == c.encode(e) + [NEWLINE] + (after + rest);
      ReplaysLine(c, File(c, es[done..]) + rest, es[..done], c.encode(e), after + rest);
      assert es[done..][1..] == es[done + 1..];
      assert es[..done] + [e] == es[..done + 1];
      HistoryAt(es, done, Replay);
      LinesReplay(c, es, done + 1, rest);
    }
  }

  /** The file of a history loads to that history. */
  lemma FileReplays(c: LineCodec, es: seq<Entry>)
    requires Faithful(c) && History(es, Replay)
    ensures Replayed(c, File(c, es), []) == Some(es)
  {
    LinesReplay(c, es, 0, []);
    assert es[0..] == es && es[..0] == [] && File(c, es) + [] == File(c, es);
  }

  lemma {:induction false} FileAppends(c: LineCodec, es: seq<Entry>, e: Entry)
    ensures File(c, es + [e]) == File(c, es) + Line(c, e)
  {
    if es == [] {
      assert [e][1..] == [];
      assert File(c, [e]) == Line(c, e) + [];
    } else {
      assert (es + [e])[1..] == es[1..] + [e];
      FileAppends(c, es[1..], e);
    }
  }

  lemma {:induction false} FileEndsLine(c: LineCodec, es: seq<Entry>, torn: seq<Byte>)
    requires Unbroken(torn)
    ensures DurableLength(File(c, es) + torn) == |File(c, es)|
  {
    var file := File(c, es) + torn;
    var n := DurableLength(file);
    var size := |File(c, es)|;
    assert forall i | size <= i < |file| :: file[i] == torn[i - size];
    assert forall i | n <= i < |file| :: file[i] == file[n..][i - n];
    if es != [] {
      LastByte(c, es);
      assert file[size - 1] == NEWLINE;
    }
  }

  lemma {:induction false} LastByte(c: LineCodec, es: seq<Entry>)
    requires es != []
    ensures File(c, es) != [] && File(c, es)[|File(c, es)| - 1] == NEWLINE
  {
    assert es == es[..|es| - 1] + [es[|es| - 1]];
    FileAppends(c, es[..|es| - 1], es[|es| - 1]);
  }

  /**
   * However little of an append reached the disk before the process died, the
   * journal loads: to the entries before it when any byte of the line is
   * missing, to the entries with it when all arrived.
   */
  lemma CrashDuringAppend(c: LineCodec, es: seq<Entry>, e: Entry, written: nat)
    requires Faithful(c) && History(es, Append)
    requires e.sequence == |es| + 1 && Allowed(es, e.action, e.transition, Append)
    requires written <= |Line(c, e)|
    ensures var file := File(c, es) + Line(c, e)[..written];
            var survivors := if written == |Line(c, e)| then es + [e] else es;
            && Replayed(c, file[..DurableLength(file)], []) == Some(survivors)
            && file[..DurableLength(file)] == File(c, survivors)
            && History(survivors, Append)
  {
    var survivors := if written == |Line(c, e)| then es + [e] else es;
    HistoryAppend(es, e, Append);
    AppendedReplays(survivors);
    FileReplays(c, survivors);
    if written == |Line(c, e)| {
      FileAppends(c, es, e);
      assert Line(c, e)[..written] == Line(c, e);
      FileEndsLine(c, survivors, []);
      assert File(c, survivors) + [] == File(c, survivors);
    } else {
      var torn := Line(c, e)[..written];
      assert torn == c.encode(e)[..written];
      FileEndsLine(c, es, torn);
    }
  }

  /** A further assumption on the encoding: with any part of another line before it a line decodes to nothing. */
  ghost predicate SelfDelimiting(c: LineCodec) {
    forall e: Entry, f: Entry, k: nat | 0 < k <= |c.encode(e)| :: c.decode(c.encode(e)[..k] + c.encode(f)) == None
  }

  /** The next line joins the torn one, and the two are no entry. */
  lemma {:induction false} TornLineStays(c: LineCodec, es: seq<Entry>, e: Entry, written: nat, fs: seq<Entry>)
    requires Faithful(c) && SelfDelimiting(c) && fs != [] && 0 < written <= |c.encode(e)|
    ensures Replayed(c, Line(c, e)[..written] + File(c, fs), es) == None
  {
    var torn := c.encode(e)[..written];
    assert Line(c, e)[..written] == torn;
    assert torn + File(c, fs) == (torn + c.encode(fs[0])) + [NEWLINE] + File(c, fs[1..]);
    ReplaysLine(c, torn + File(c, fs), es, torn + c.encode(fs[0]), File(c, fs[1..]));
  }

  /** The line is whole, and the next has the same number. */
  lemma {:induction false} RepeatedNumberStays(c: LineCodec, es: seq<Entry>, e: Entry, fs: seq<Entry>)
    requires Faithful(c) && fs != [] && fs[0].sequence == |es| + 1
    ensures Replayed(c, Line(c, e) + File(c, fs), es) == None
  {
    ReplaysLine(c, Line(c, e) + File(c, fs), es, c.encode(e), File(c, fs));
    assert File(c, fs) == c.encode(fs[0]) + [NEWLINE] + File(c, fs[1..]);
    ReplaysLine(c, File(c, fs), es + [e], c.encode(fs[0]), File(c, fs[1..]));
  }

  /**
   * An append that fails while the process goes on is not undone on disk, and
   * its number is given again. With any later entry behind it the journal
   * still loads exactly if the failed append left no byte at all.
   */
  lemma FailedAppendInTheMiddle(c: LineCodec, es: seq<Entry>, e: Entry, written: nat, fs: seq<Entry>)
    requires Faithful(c) && SelfDelimiting(c) && History(es + fs, Append) && fs != []
    requires written <= |Line(c, e)|
    ensures var file := File(c, es) + Line(c, e)[..written] + File(c, fs);
            Replayed(c, file[..DurableLength(file)], []) == if written == 0 then Some(es + fs) else None
  {
    var rest := Line(c, e)[..written] + File(c, fs);
    var file := File(c, es) + Line(c, e)[..written] + File(c, fs);
    LastByte(c, fs);
    assert file[..DurableLength(file)] == file == File(c, es) + rest;
    AppendedReplays(es + fs);
    HistoryAt(es + fs, |es|, Replay);
    PrefixIsHistory(es, fs);
    LinesReplay(c, es, 0, rest);
    assert es[0..] == es && es[..0] == [];
    if written == 0 {
      LinesReplay(c, es + fs, |es|, []);
      assert (es + fs)[|es|..] == fs && (es + fs)[..|es|] == es && rest == File(c, fs) + [];
    } else if written <= |c.encode(e)| {
      TornLineStays(c, es, e, written, fs);
    } else {
      assert Line(c, e)[..written] == Line(c, e);
      RepeatedNumberStays(c, es, e, fs);
    }
  }

  lemma {:induction false} PrefixIsHistory(es: seq<Entry>, fs: seq<Entry>)
    requires History(es + fs, Replay)
    ensures History(es, Replay)
  {
    if fs == [] {
      assert es + fs == es;
    } else {
      var n := |fs| - 1;
      assert (es + fs)[..|es + fs| - 1] == es + fs[..n];
      PrefixIsHistory(es, fs[..n]);
    }
  }
}
