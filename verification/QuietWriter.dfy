/** The streaming log filter of a fast reap pass: it drops the per-slot
    "nothing to do" lines, however the text is cut into Write calls. */
module QuietWriter {
  import opened Wrappers

  /** Bytes are modelled as characters. */
  predicate Quiet(line: string) {
    "KEEP " <= line || "COLD " <= line || "IDLE " <= line || "SKIP " <= line
  }

  /** A line is dropped for its first five characters, and for nothing else. */
  lemma QuietMeans(line: string)
    ensures Quiet(line) <==> |line| >= 5 && line[..5] in {"KEEP ", "COLD ", "IDLE ", "SKIP "}
  {
    if |line| >= 5 {
      StartsWith(line, "KEEP ");
      StartsWith(line, "COLD ");
      StartsWith(line, "IDLE ");
      StartsWith(line, "SKIP ");
    }
  }

  lemma StartsWith(line: string, verb: string)
    requires |verb| == 5 <= |line|
    ensures verb <= line <==> line[..5] == verb
  {
  }

  /** What a pass did, or could not do, is always shown. */
  lemma DeedsAreShown(verb: string, rest: string)
    requires verb in {"SHUT ", "SCRUB ", "PURGE ", "PRUNE ", "RECOVER ", "DISOWN ", "STUCK ", "BUSY ", "WARM ", "ORPHAN ", "reap "}
    ensures !Quiet(verb + rest)
  {
    var line := verb + rest;
    assert line[0] == verb[0] && line[1] == verb[1];
  }

  const NL: char := '\n'

  /** Where the first line of text ends, its newline included. */
  function LineEnd(text: string): (k: nat)
    requires text != ""
    ensures 0 < k <= |text|
    ensures forall i :: 0 <= i < k - 1 ==> text[i] != NL
    ensures text[k - 1] == NL || k == |text|
  {
    if text[0] == NL || |text| == 1 then 1 else 1 + LineEnd(text[1..])
  }

  /** The lines of text that carry no quiet prefix, a last unterminated line
      included: what the filter is for, said of the whole text at once. */
  function Kept(text: string): string {
    if text == "" then ""
    else
      var k := LineEnd(text);
      Shown(text[..k]) + Kept(text[k..])
  }

  function Shown(line: string): string {
    if Quiet(line) then "" else line
  }

  predicate Ended(text: string) {
    text == "" || text[|text| - 1] == NL
  }

  lemma {:induction false} LineEndOfSum(a: string, b: string)
    requires a != "" && Ended(a)
    ensures LineEnd(a + b) == LineEnd(a)
  {
    if a[0] != NL {
      assert (a + b)[1..] == a[1..] + b;
      LineEndOfSum(a[1..], b);
    }
  }

  lemma KeptStep(text: string)
    requires text != ""
    ensures Kept(text) == Shown(text[..LineEnd(text)]) + Kept(text[LineEnd(text)..])
  {
  }

  lemma {:induction false} KeptOfSum(a: string, b: string)
    requires Ended(a)
    ensures Kept(a + b) == Kept(a) + Kept(b)
    decreases |a|
  {
    hide Kept, Shown, LineEnd, Ended;
    if a == "" {
      KeptNothing();
      assert a + b == b && "" + Kept(b) == Kept(b);
    } else {
      RestEnded(a);
      KeptOfSum(a[LineEnd(a)..], b);
      KeptStep(a);
      SumStep(a, b);
      Assoc(Shown(a[..LineEnd(a)]), Kept(a[LineEnd(a)..]), Kept(b));
    }
  }

  lemma KeptNothing()
    ensures Kept("") == ""
  {
  }

  lemma SumStep(a: string, b: string)
    requires a != "" && Ended(a)
    ensures Kept(a + b) == Shown(a[..LineEnd(a)]) + Kept(a[LineEnd(a)..] + b)
  {
    hide Kept, Shown, LineEnd;
    LineEndOfSum(a, b);
    KeptStep(a + b);
    assert (a + b)[..LineEnd(a)] == a[..LineEnd(a)] && (a + b)[LineEnd(a)..] == a[LineEnd(a)..] + b;
  }

  lemma Assoc(x: string, y: string, z: string)
    ensures x + (y + z) == x + y + z
  {
  }

  lemma KeptLine(line: string)
    requires line != "" && forall i :: 0 <= i < |line| - 1 ==> line[i] != NL
    ensures Kept(line) == Shown(line)
  {
    assert LineEnd(line) == |line|;
    assert line[..|line|] == line && Kept(line[|line|..]) == "";
  }

  /** What Flush emits of its buffer, judged by the first line alone, is what
      the filter would keep exactly when all its lines are quiet or none is.
      A refused write can leave several lines there; otherwise there is one. */
  lemma FlushMayMisjudge(buf: string)
    requires buf != ""
    ensures (if Quiet(buf) then "" else buf) == Kept(buf) <==> Lines(buf, true) || Lines(buf, false)
  {
    KeptIsShorter(buf);
    QuietFirst(buf);
    hide Quiet;
  }

  lemma FlushJudged(received: string, buf: string)
    ensures var out := if buf == "" || Quiet(buf) then "" else buf;
            && received + "" == received
            && (received + out == received + Kept(buf) <==> Lines(buf, true) || Lines(buf, false))
  {
    if buf != "" { FlushMayMisjudge(buf); }
    Cancel(received, if buf == "" || Quiet(buf) then "" else buf, Kept(buf));
    hide Quiet, Kept;
  }

  lemma QuietFirst(text: string)
    requires text != ""
    ensures Quiet(text) <==> Quiet(text[..LineEnd(text)])
  {
    var k := LineEnd(text);
    if Quiet(text) {
      assert forall i :: 0 <= i < 5 ==> text[i] != NL;
      assert text[..k][..5] == text[..5];
    }
  }

  lemma {:induction false} KeptIsShorter(text: string)
    ensures |Kept(text)| <= |text|
    ensures Kept(text) == text <==> Lines(text, false)
    ensures Kept(text) == "" <==> Lines(text, true)
  {
    if text != "" {
      var k := LineEnd(text);
      KeptIsShorter(text[k..]);
      assert text == text[..k] + text[k..];
      if !Quiet(text[..k]) && Kept(text) == text {
        assert Kept(text)[k..] == Kept(text[k..]);
      }
    }
  }

  /** Every line of text is quiet, or every line is not. */
  predicate Lines(text: string, quiet: bool) {
    text != "" ==> Quiet(text[..LineEnd(text)]) == quiet && Lines(text[LineEnd(text)..], quiet)
  }

  /** How many lines of text carry no quiet prefix. */
  ghost function ShownLines(text: string): nat {
    if text == "" then 0
    else (if Quiet(text[..LineEnd(text)]) then 0 else 1) + ShownLines(text[LineEnd(text)..])
  }

  lemma {:induction false} OneMoreLine(done: string, line: string)
    requires Ended(done) && OneLine(line)
    ensures ShownLines(done + line) == ShownLines(done) + if Quiet(line) then 0 else 1
    decreases |done|
  {
    if done == "" {
      assert done + line == line && LineEnd(line) == |line| && line[..|line|] == line;
    } else {
      hide ShownLines, Quiet, LineEnd, OneLine, Ended;
      var rest := done[LineEnd(done)..];
      RestEnded(done);
      OneMoreLine(rest, line);
      ShownStep(done);
      ShownOfSum(done, line);
    }
  }

  lemma RestEnded(text: string)
    requires text != "" && Ended(text)
    ensures Ended(text[LineEnd(text)..]) && |text[LineEnd(text)..]| < |text|
  {
  }

  lemma ShownStep(text: string)
    requires text != ""
    ensures ShownLines(text) == (if Quiet(text[..LineEnd(text)]) then 0 else 1) + ShownLines(text[LineEnd(text)..])
  {
  }

  lemma ShownOfSum(a: string, b: string)
    requires a != "" && Ended(a)
    ensures ShownLines(a + b) == (if Quiet(a[..LineEnd(a)]) then 0 else 1) + ShownLines(a[LineEnd(a)..] + b)
  {
    hide ShownLines, Quiet, LineEnd;
    LineEndOfSum(a, b);
    ShownStep(a + b);
    assert (a + b)[..LineEnd(a)] == a[..LineEnd(a)] && (a + b)[LineEnd(a)..] == a[LineEnd(a)..] + b;
  }

  /** The writes one call makes: taken, but for the last of a refused one. */
  ghost predicate Asked(plan: nat -> Option<nat>, from: nat, to: nat, ok: bool) {
    && (forall k: nat :: from <= k < to - (if ok then 0 else 1) ==> plan(k).None?)
    && (!ok ==> from < to && plan(to - 1).Some?)
  }

  /** Where a call is: `done` of all it has is through the filter. */
  ghost predicate Midway(plan: nat -> Option<nat>, sent: string, from: nat, all: string, done: string, buf: string, received: string, writes: nat) {
    && all == done + buf && Ended(done) && received == sent + Kept(done)
    && from <= writes == from + ShownLines(done) && Asked(plan, from, writes, true)
  }

  lemma MidwayStart(plan: nat -> Option<nat>, sent: string, from: nat, all: string)
    ensures Midway(plan, sent, from, all, "", all, sent, from)
  {
    assert "" + all == all && sent + "" == sent;
  }

  /** One line further: it is quiet, or taken, or refused. */
  lemma MidwayNext(plan: nat -> Option<nat>, sent: string, from: nat, all: string, done: string, line: string, rest: string, received: string, writes: nat)
    requires Midway(plan, sent, from, all, done, line + rest, received, writes) && OneLine(line)
    ensures Quiet(line) ==> Midway(plan, sent, from, all, done + line, rest, received, writes)
    ensures !Quiet(line) && plan(writes).None? ==>
              Midway(plan, sent, from, all, done + line, rest, received + Taken(line, plan(writes)), writes + 1)
    ensures all == done + line + rest
    ensures Ended(done) && received == sent + Kept(done) && writes == from + ShownLines(done)
    ensures !Quiet(line) ==> Kept(line) == line
    ensures plan(writes).Some? ==> Asked(plan, from, writes + 1, false)
  {
    TakeLine(sent, done, line, rest);
    OneMoreLine(done, line);
    hide Kept, Ended, OneLine, ShownLines, Quiet;
  }

  predicate Partly(before: string, line: string, after: string) {
    before <= after <= before + line
  }

  /** The wrapped writer.  plan says what becomes of each write: taken (None),
      or refused after so many characters. */
  class Sink {
    const plan: nat -> Option<nat>
    var received: string
    var writes: nat
    ghost var refused: bool  // some write was

    constructor (plan: nat -> Option<nat>)
      ensures this.plan == plan && received == "" && writes == 0 && !refused
    {
      this.plan, received, writes, refused := plan, "", 0, false;
    }

    method Write(line: string) returns (ok: bool)
      modifies this
      ensures writes == old(writes) + 1 && ok == plan(old(writes)).None?
      ensures refused == (old(refused) || !ok)
      ensures received == old(received) + Taken(line, plan(old(writes)))
      ensures Partly(old(received), line, received)
    {
      received := received + Taken(line, plan(writes));
      ok := plan(writes).None?;
      writes, refused := writes + 1, refused || !ok;
    }
  }

  /** What a write leaves in the sink. */
  function Taken(line: string, refusal: Option<nat>): string {
    if refusal.None? || refusal.value > |line| then line else line[..refusal.value]
  }

  /** Of `fed`, all but buf has gone through the filter onto base. */
  ghost predicate Passed(fed: string, buf: string, base: string, received: string, done: string) {
    fed == done + buf && Ended(done) && received == base + Kept(done)
  }

  lemma PassedMore(fed: string, buf: string, base: string, received: string, before: string, p: string, done: string, rest: string)
    requires Passed(fed, buf, base, received, before)
    requires buf + p == done + rest && Ended(done)
    ensures Passed(fed + p, rest, base, received + Kept(done), before + done)
  {
    hide Kept;
    KeptOfSum(before, done);
    Assoc(before, buf, p);
    Assoc(before, done, rest);
    Assoc(base, Kept(before), Kept(done));
  }

  /** A line with its newline. */
  predicate OneLine(line: string) {
    line != "" && Ended(line) && forall i :: 0 <= i < |line| - 1 ==> line[i] != NL
  }

  lemma TakeLine(sent: string, done: string, line: string, rest: string)
    requires Ended(done) && OneLine(line)
    ensures sent + Kept(done + line) == sent + Kept(done) + Shown(line)
    ensures done + (line + rest) == (done + line) + rest
    ensures Ended(done + line) && Kept(line) == Shown(line) && line != ""
  {
    KeptLine(line);
    EndedSum(done, line);
    hide Kept, Shown, Ended;
    KeptOfSum(done, line);
    Assoc(sent, Kept(done), Shown(line));
    Assoc(done, line, rest);
  }

  lemma AllThrough(plan: nat -> Option<nat>, sent: string, from: nat, all: string, done: string, buf: string, received: string, writes: nat)
    requires Midway(plan, sent, from, all, done, buf, received, writes)
    ensures all == done + buf && Ended(done) && received == sent + Kept(done)
    ensures writes == from + ShownLines(done) && Asked(plan, from, writes, true)
  {
  }

  lemma LineIsSome(line: string)
    requires OneLine(line)
    ensures line != ""
  {
  }

  lemma EndedSum(done: string, line: string)
    requires line != "" && Ended(line)
    ensures Ended(done + line)
  {
  }

  class Writer {
    const w: Sink
    var buf: string
    ghost var fed: string   // everything written since the last Flush
    ghost var base: string  // what the sink had then

    /** Without a refused write, the sink has got the kept lines of what was
        fed up to the last newline, and the buffer has the rest. */
    ghost predicate Valid()
      reads this, w
    {
      !w.refused ==> NL !in buf && exists done :: Passed(fed, buf, base, w.received, done)
    }

    constructor (w: Sink)
      ensures Valid() && this.w == w && fed == "" && buf == "" && base == w.received
    {
      this.w := w;
      buf, fed, base := "", "", w.received;
      new;
      assert Passed(fed, buf, base, w.received, "");
    }

    /** bytes.Buffer.ReadBytes('\n'): takes the first line out of the buffer,
        or everything when no line is complete. */
    method ReadBytes() returns (line: string, found: bool)
      modifies this`buf
      ensures old(buf) == line + buf
      ensures found ==> OneLine(line)
      ensures !found ==> NL !in line && line == old(buf)
    {
      var k := FirstNewline(buf);
      found := k < |buf|;
      line := if found then buf[..k + 1] else buf;
      buf := if found then buf[k + 1..] else "";
    }

    /** One Write call.  On a refused write it stops at once: `lost` is the
        line that was refused, and everything after it stays in the buffer. */
    method Write(p: string) returns (n: nat, ok: bool, ghost done: string, ghost lost: string)
      requires Valid()
      modifies this, w
      ensures Valid() && n == |p| && fed == old(fed) + p && base == old(base)
      ensures w.refused == (old(w.refused) || !ok)
      ensures Ended(done)
      ensures ok ==> old(buf) + p == done + buf && NL !in buf && w.received == old(w.received) + Kept(done)
      ensures !ok ==> old(buf) + p == done + lost + buf && OneLine(lost) && Kept(lost) == lost
      ensures Asked(w.plan, old(w.writes), w.writes, ok)
      ensures w.writes == old(w.writes) + ShownLines(done) + if ok then 0 else 1
      ensures !ok ==> w.received == old(w.received) + Kept(done) + Taken(lost, w.plan(old(w.writes) + ShownLines(done)))
    {
      hide *;
      ghost var sent, all, from := w.received, buf + p, w.writes;
      Unrefused();
      MidwayStart(w.plan, sent, from, all);
      done, lost := "", "";
      fed := fed + p;
      buf := buf + p;
      n := |p|;
      while true
        invariant Midway(w.plan, sent, from, all, done, buf, w.received, w.writes)
        invariant w.refused == old(w.refused) && fed == old(fed) + p && base == old(base) && lost == ""
        decreases |buf|
      {
        var line, found := ReadBytes();
        if !found {
          buf := line;
          ok := true;
          AllThrough(w.plan, sent, from, all, done, buf, w.received, w.writes);
          StillValid(old(fed), old(buf), base, sent, w.refused, p, done, buf, w.received, fed);
          return;
        }
        MidwayNext(w.plan, sent, from, all, done, line, buf, w.received, w.writes);
        LineIsSome(line);
        if !Quiet(line) {
          var took := w.Write(line);
          if !took {
            lost := line;
            ok := false;
            OnceRefused();
            return;
          }
        }
        done := done + line;
      }
    }

    lemma Unrefused()
      requires Valid()
      ensures !w.refused ==> NL !in buf && exists before :: Passed(fed, buf, base, w.received, before)
    {
    }

    lemma OnceRefused()
      ensures w.refused ==> Valid()
    {
    }

    lemma StillValid(fed0: string, buf0: string, base0: string, sent: string, refused: bool, p: string, done: string, rest: string, received: string, fed1: string)
      requires fed1 == fed == fed0 + p && base == base0 && buf == rest && w.received == received && w.refused == refused
      requires !refused ==> exists before :: Passed(fed0, buf0, base0, sent, before)
      requires buf0 + p == done + rest && Ended(done) && NL !in rest && received == sent + Kept(done)
      ensures Valid()
    {
      if !refused {
        hide Passed, Kept;
        var before :| Passed(fed0, buf0, base0, sent, before);
        PassedMore(fed0, buf0, base0, sent, before, p, done, rest);
      }
    }

    /** The last unterminated line.  When no write was refused, the sink has
        now received exactly the kept lines of everything fed. */
    method Flush()
      requires Valid()
      modifies this, w
      ensures Valid() && buf == "" && fed == "" && base == w.received
      ensures !w.refused ==> !old(w.refused) && w.received == old(base) + Kept(old(fed))
      // whatever was refused before: the buffer goes out whole or not at all,
      // by its first line, and that is the filter's answer exactly when its
      // lines agree
      ensures if old(buf) == "" || Quiet(old(buf)) then w.received == old(w.received) && w.writes == old(w.writes)
              else w.received == old(w.received) + Taken(old(buf), w.plan(old(w.writes))) && w.writes == old(w.writes) + 1
      ensures w.plan(old(w.writes)).None? ==>
                (w.received == old(w.received) + Kept(old(buf)) <==> Lines(old(buf), true) || Lines(old(buf), false))
    {
      hide *;
      FlushJudged(w.received, buf);
      Unrefused();
      TakenWhole(buf, w.plan(w.writes));
      if !w.refused {
        ghost var done :| Passed(fed, buf, base, w.received, done);
        LastLine(fed, buf, base, w.received, done);
      }
      if |buf| > 0 && !Quiet(buf) {
        var _ := w.Write(buf);
      }
      buf, fed, base := "", "", w.received;
      Emptied();
    }

    lemma Emptied()
      requires buf == "" && fed == "" && base == w.received
      ensures Valid()
    {
      NothingFed(base);
      hide Passed;
    }
  }

  lemma TakenWhole(line: string, refusal: Option<nat>)
    ensures refusal.None? ==> Taken(line, refusal) == line
  {
  }

  lemma Cancel(r: string, x: string, y: string)
    ensures r + x == r + y <==> x == y
    ensures r + "" == r
  {
    if r + x == r + y { assert (r + x)[|r|..] == x && (r + y)[|r|..] == y; }
  }

  lemma LastLine(fed: string, buf: string, base: string, received: string, done: string)
    requires Passed(fed, buf, base, received, done) && NL !in buf
    ensures base + Kept(fed) == if buf != "" && !Quiet(buf) then received + buf else received
  {
    if buf == "" {
      assert done + buf == done;
    } else {
      KeptLine(buf);
      hide Kept, Quiet;
      KeptOfSum(done, buf);
      Assoc(base, Kept(done), Shown(buf));
    }
  }

  lemma NothingFed(base: string)
    ensures Passed("", "", base, base, "")
  {
    assert base + "" == base;
  }

  /** bytes.Buffer.ReadBytes: the index of the first newline, or the length. */
  method FirstNewline(s: string) returns (k: nat)
    ensures k <= |s| && NL !in s[..k] && (k < |s| ==> s[k] == NL)
  {
    k := 0;
    while k < |s| && s[k] != NL
      invariant k <= |s| && NL !in s[..k]
    {
      k := k + 1;
    }
  }

  function Concat(chunks: seq<string>): string {
    if chunks == [] then "" else Concat(chunks[..|chunks| - 1]) + chunks[|chunks| - 1]
  }

  /** A fast pass: for every way of cutting its log into Write calls, after
      the final Flush the sink has received the whole text's kept lines. */
  method Pass(w: Sink, chunks: seq<string>)
    requires w.received == "" && !w.refused
    modifies w
    ensures !w.refused ==> w.received == Kept(Concat(chunks))
  {
    var q := new Writer(w);
    for i := 0 to |chunks|
      invariant q.Valid() && q.w == w && fresh(q) && q.base == "" && q.fed == Concat(chunks[..i])
    {
      assert chunks[..i + 1][..i] == chunks[..i];
      var _, _, _, _ := q.Write(chunks[i]);
    }
    assert chunks[..|chunks|] == chunks;
    q.Flush();
  }

  /** After a refused write the buffer may be anything: the sink turns down the
      first line, takes the flush, and gets what the filter would keep of the
      rest exactly when the rest is all quiet or none of it is. */
  method FlushAtWorst(rest: string) returns (w: Sink)
    ensures w.received == Kept(rest) <==> Lines(rest, true) || Lines(rest, false)
  {
    w := new Sink((k: nat) => if k == 0 then Some(0) else None);
    var q := new Writer(w);
    var p := "a\n" + rest;
    var n, ok, done, lost := q.Write(p);
    assert "" + p == p;
    FirstRefused(p, rest, done, lost, q.buf, ok, w.writes);
    hide Kept, Lines;
    q.Flush();
  }

  lemma FirstRefused(p: string, rest: string, done: string, lost: string, buf: string, ok: bool, writes: nat)
    requires p == "a\n" + rest && Ended(done) && writes == ShownLines(done) + if ok then 0 else 1
    requires Asked((k: nat) => if k == 0 then Some(0) else None, 0, writes, ok)
    requires if ok then p == done + buf && NL !in buf else p == done + lost + buf && OneLine(lost)
    ensures !ok && buf == rest && done == "" && writes == 1 && Kept(done) + Taken(lost, Some(0)) == ""
  {
    var plan: nat -> Option<nat> := (k: nat) => if k == 0 then Some(0) else None;
    assert plan(0).Some?;
    if done != "" { FirstShown(p, done); }
    assert done == "" && p[1] == NL && p[0] == 'a';
    if !ok {
      assert p == lost + buf;
      assert |lost| == 2;
      assert rest == p[2..] == buf;
    }
  }

  lemma FirstShown(p: string, done: string)
    requires done <= p && |p| >= 2 && p[..2] == "a\n" && done != "" && Ended(done)
    ensures ShownLines(done) > 0
  {
    assert done[0] == 'a' && |done| >= 2 && done[1] == NL;
    assert LineEnd(done) == 2;
  }
}
