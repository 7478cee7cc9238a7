/** The batched environment query: a list query that fails as soon as one pid
    in it has exited, with a fallback that asks about each pid alone. */
module Chunks {
  import opened Wrappers

  datatype SimProcess = SimProcess(pid: int, udid: string)

  /** One line of the argv snapshot: a launchd_sim (with the UDID its data
      directory names, if any), a process run from a runtime root, or neither. */
  datatype Seen = LaunchdSim(pid: int, udid: Option<string>) | Candidate(pid: int) | Unrelated

  const PID_CHUNK := 128

  // ---------------------------------------------------------------- text

  const NL: char := '\n'

  /** The non-empty lines of text; `line` is what has been read of the current one. */
  function Lines(text: string, line: string): seq<string> {
    if text == "" then (if line == "" then [] else [line])
    else if text[0] == NL then (if line == "" then [] else [line]) + Lines(text[1..], "")
    else Lines(text[1..], line + [text[0]])
  }

  predicate Ended(text: string) {
    text == "" || text[|text| - 1] == NL
  }

  /** Texts whose last line is ended can be concatenated. */
  lemma {:induction false} LinesOfSum(a: string, line: string, b: string)
    requires Ended(a) && (a == "" ==> line == "")
    ensures Lines(a + b, line) == Lines(a, line) + Lines(b, "")
    decreases |a|
  {
    if a == "" {
      assert a + b == b;
    } else {
      assert (a + b)[1..] == a[1..] + b;
      if a[0] == NL {
        LinesOfSum(a[1..], "", b);
        var first := if line == "" then [] else [line];
        assert first + (Lines(a[1..], "") + Lines(b, "")) == first + Lines(a[1..], "") + Lines(b, "");
      } else {
        LinesOfSum(a[1..], line + [a[0]], b);
      }
    }
  }

  /** Ending the last line changes no line. */
  lemma {:induction false} LinesOfEnded(a: string, line: string)
    requires !Ended(a)
    ensures Lines(a + "\n", line) == Lines(a, line)
    decreases |a|
  {
    assert (a + "\n")[1..] == a[1..] + "\n";
    if a[0] == NL {
      LinesOfEnded(a[1..], "");
    } else if |a| == 1 {
      assert a[1..] == "" && "" + "\n" == "\n" && "\n"[1..] == "";
      var whole := line + [a[0]];
      assert Lines("\n", whole) == [whole] + Lines("", "") == [whole];
    } else {
      LinesOfEnded(a[1..], line + [a[0]]);
    }
  }

  // ---------------------------------------------------------------- the process table

  /** `ps -Eww -p`.  What it prints for a pid and when each pid exits are
      arbitrary; a query is refused as a whole if any of its pids has exited. */
  class Ps {
    const exits: map<int, nat>
    const line: int -> string
    const answer: seq<int> -> string
    var clock: nat

    predicate Alive(p: int, t: nat) {
      p in exits ==> t < exits[p]
    }

    constructor (exits: map<int, nat>, line: int -> string, answer: seq<int> -> string)
      ensures this.exits == exits && this.line == line && this.answer == answer && clock == 0
    {
      this.exits, this.line, this.answer, clock := exits, line, answer, 0;
    }

    method Query(pids: seq<int>) returns (out: Option<string>)
      modifies this
      ensures clock == old(clock) + 1
      ensures out == if forall p :: p in pids ==> Alive(p, old(clock)) then Some(answer(pids)) else None
    {
      out := if forall p | p in pids :: Alive(p, clock) then Some(answer(pids)) else None;
      clock := clock + 1;
    }
  }

  /** An answer lists the pids' lines in order, the last one ended or not. */
  ghost predicate Faithful(line: int -> string, answer: seq<int> -> string) {
    forall pids :: Lines(answer(pids), "") == Printed(line, pids, All(|pids|))
  }

  function All(n: nat): seq<bool> {
    seq(n, _ => true)
  }

  /** The lines of the pids that were answered for, in order. */
  function Printed(line: int -> string, pids: seq<int>, got: seq<bool>): seq<string>
    requires |pids| == |got|
  {
    if pids == [] then []
    else
      Printed(line, pids[..|pids| - 1], got[..|pids| - 1]) + if got[|pids| - 1] then [line(pids[|pids| - 1])] else []
  }

  lemma {:induction false} PrintedSum(line: int -> string, a: seq<int>, g: seq<bool>, b: seq<int>, h: seq<bool>)
    requires |a| == |g| && |b| == |h|
    ensures Printed(line, a + b, g + h) == Printed(line, a, g) + Printed(line, b, h)
    decreases |b|
  {
    if b == [] {
      assert a + b == a && g + h == g;
    } else {
      var n := |b| - 1;
      PrintedSum(line, a, g, b[..n], h[..n]);
      assert (a + b)[..|a + b| - 1] == a + b[..n] && (g + h)[..|a + b| - 1] == g + h[..n];
    }
  }

  /** got says for each pid whether its line was obtained: certainly if it was
      still alive at t1, and only if it was alive at t0. */
  ghost predicate Fair(ps: Ps, pids: seq<int>, got: seq<bool>, t0: nat, t1: nat) {
    && |got| == |pids|
    && forall i :: 0 <= i < |pids| ==> (ps.Alive(pids[i], t1) ==> got[i]) && (got[i] ==> ps.Alive(pids[i], t0))
  }

  lemma FairSum(ps: Ps, a: seq<int>, g: seq<bool>, b: seq<int>, h: seq<bool>, t0: nat, t1: nat, t2: nat)
    requires Fair(ps, a, g, t0, t1) && Fair(ps, b, h, t1, t2) && t0 <= t1 <= t2
    ensures Fair(ps, a + b, g + h, t0, t2)
  {
  }

  ghost predicate AllAlive(ps: Ps, pids: seq<int>, t: nat) {
    forall p :: p in pids ==> ps.Alive(p, t)
  }

  method EnvForChunk(ps: Ps, pids: seq<int>) returns (out: string, ghost got: seq<bool>)
    requires Faithful(ps.line, ps.answer)
    modifies ps
    ensures ps.clock >= old(ps.clock)
    ensures |got| == |pids| && Fair(ps, pids, got, old(ps.clock), ps.clock)
    ensures Lines(out, "") == Printed(ps.line, pids, got)
    ensures ps.clock == old(ps.clock) + if AllAlive(ps, pids, old(ps.clock)) then 1 else 1 + |pids|
  {
    var batch := ps.Query(pids);
    if batch.Some? {
      return batch.value, All(|pids|);
    }
    ghost var t1 := ps.clock;
    out, got := AskEach(ps, pids);
    FairEarlier(ps, pids, got, old(ps.clock), t1, ps.clock);
  }

  lemma FairOne(ps: Ps, p: int, t: nat)
    ensures Fair(ps, [p], [ps.Alive(p, t)], t, t + 1)
  {
  }

  lemma FairEarlier(ps: Ps, a: seq<int>, g: seq<bool>, t0: nat, t1: nat, t2: nat)
    requires Fair(ps, a, g, t1, t2) && t0 <= t1
    ensures Fair(ps, a, g, t0, t2)
  {
  }

  /** The fallback: one query per pid, the refused ones skipped. */
  method AskEach(ps: Ps, pids: seq<int>) returns (out: string, ghost got: seq<bool>)
    requires Faithful(ps.line, ps.answer)
    modifies ps
    ensures ps.clock == old(ps.clock) + |pids|
    ensures Fair(ps, pids, got, old(ps.clock), ps.clock)
    ensures Lines(out, "") == Printed(ps.line, pids, got)
  {
    hide Asked, Faithful;
    out, got := "", [];
    AskedNone(ps, pids, ps.clock);
    for i := 0 to |pids|
      invariant ps.clock == old(ps.clock) + i && Asked(ps, pids[..i], out, got, old(ps.clock), ps.clock)
    {
      assert pids[..i + 1] == pids[..i] + [pids[i]];
      out, got := AskOne(ps, pids[..i], out, got, old(ps.clock), pids[i]);
    }
    assert pids[..|pids|] == pids;
    AskedMeans(ps, pids, out, got, old(ps.clock), ps.clock);
  }

  method AskOne(ps: Ps, ghost pids: seq<int>, out: string, ghost got: seq<bool>, ghost t0: nat, p: int)
      returns (more: string, ghost g: seq<bool>)
    requires Faithful(ps.line, ps.answer) && t0 <= ps.clock && Asked(ps, pids, out, got, t0, ps.clock)
    modifies ps
    ensures ps.clock == old(ps.clock) + 1 && Asked(ps, pids + [p], more, g, t0, ps.clock)
  {
    ghost var t := ps.clock;
    var one := ps.Query([p]);
    if one.Some? {
      more := Append(ps, out, one.value, p);
    } else {
      more := out;
    }
    g := got + [ps.Alive(p, t)];
    AskedMore(ps, pids, out, got, p, more, t0, t);
  }

  lemma AskedNone(ps: Ps, pids: seq<int>, t: nat)
    ensures Asked(ps, pids[..0], "", [], t, t)
  {
    assert pids[..0] == [];
  }

  lemma AskedMeans(ps: Ps, pids: seq<int>, out: string, got: seq<bool>, t0: nat, t1: nat)
    requires Asked(ps, pids, out, got, t0, t1)
    ensures Fair(ps, pids, got, t0, t1) && Lines(out, "") == Printed(ps.line, pids, got)
  {
  }

  /** out holds the lines of the pids asked about so far. */
  ghost predicate Asked(ps: Ps, pids: seq<int>, out: string, got: seq<bool>, t0: nat, t1: nat) {
    Ended(out) && Fair(ps, pids, got, t0, t1) && Lines(out, "") == Printed(ps.line, pids, got)
  }

  lemma AskedMore(ps: Ps, pids: seq<int>, out: string, got: seq<bool>, p: int, more: string, t0: nat, t: nat)
    requires t0 <= t && Asked(ps, pids, out, got, t0, t)
    requires if ps.Alive(p, t) then Ended(more) && Lines(more, "") == Lines(out, "") + Printed(ps.line, [p], [true]) else more == out
    ensures Asked(ps, pids + [p], more, got + [ps.Alive(p, t)], t0, t + 1)
  {
    FairOne(ps, p, t);
    var g := [ps.Alive(p, t)];
    FairSum(ps, pids, got, [p], g, t0, t, t + 1);
    PrintedSum(ps.line, pids, got, [p], g);
    hide Fair, Lines, Ended;
  }

  /** Appends one answer, ending its last line if `ps` did not. */
  method Append(ps: Ps, out: string, answer: string, p: int) returns (more: string)
    requires Faithful(ps.line, ps.answer) && Ended(out) && answer == ps.answer([p])
    ensures Ended(more) && Lines(more, "") == Lines(out, "") + Printed(ps.line, [p], [true])
  {
    assert All(1) == [true];
    more := answer;
    if |answer| > 0 && answer[|answer| - 1] != NL {
      LinesOfEnded(answer, "");
      more := answer + "\n";
    }
    LinesOfSum(out, "", more);
    more := out + more;
  }

  // ---------------------------------------------------------------- the whole pass

  ghost function Launchds(snapshot: seq<Seen>): seq<SimProcess> {
    if snapshot == [] then []
    else
      var s := snapshot[|snapshot| - 1];
      Launchds(snapshot[..|snapshot| - 1]) + if s.LaunchdSim? && s.udid.Some? then [SimProcess(s.pid, s.udid.value)] else []
  }

  ghost function Candidates(snapshot: seq<Seen>): seq<int> {
    if snapshot == [] then []
    else
      var s := snapshot[|snapshot| - 1];
      Candidates(snapshot[..|snapshot| - 1]) + if s.Candidate? then [s.pid] else []
  }

  function Attributed(read: string -> Option<SimProcess>, lines: seq<string>): seq<SimProcess> {
    if lines == [] then []
    else
      var p := read(lines[|lines| - 1]);
      Attributed(read, lines[..|lines| - 1]) + if p.Some? then [p.value] else []
  }

  lemma {:induction false} AttributedSum(read: string -> Option<SimProcess>, a: seq<string>, b: seq<string>)
    ensures Attributed(read, a + b) == Attributed(read, a) + Attributed(read, b)
    decreases |b|
  {
    if b == [] {
      assert a + b == a;
    } else {
      AttributedSum(read, a, b[..|b| - 1]);
      assert (a + b)[..|a + b| - 1] == a + b[..|b| - 1];
    }
  }

  /** strings.Split on newlines, as a loop over what it yields. */
  method Split(text: string) returns (lines: seq<string>)
    ensures lines == Lines(text, "")
  {
    lines := [];
    var line := "";
    for i := 0 to |text|
      invariant lines + Lines(text[i..], line) == Lines(text, "")
    {
      assert text[i..][1..] == text[i + 1..];
      if text[i] == NL {
        if line != "" { lines := lines + [line]; }
        line := "";
      } else {
        line := line + [text[i]];
      }
    }
    if line != "" { lines := lines + [line]; }
  }

  /** Every launchd_sim of the snapshot, then every candidate that was answered
      for: each candidate is asked about in exactly one chunk, in order; one
      that lives to the end of the pass is always found, and nothing is found
      for one that had exited when it began. */
  method SimRuntimeProcesses(ps: Ps, snapshot: Option<seq<Seen>>, read: string -> Option<SimProcess>)
      returns (found: Option<seq<SimProcess>>, ghost got: seq<bool>)
    requires Faithful(ps.line, ps.answer)
    modifies ps
    ensures found.Some? <==> snapshot.Some?
    ensures ps.clock >= old(ps.clock)
    ensures found.Some? ==>
              && Fair(ps, Candidates(snapshot.value), got, old(ps.clock), ps.clock)
              && found.value == Launchds(snapshot.value) + Attributed(read, Printed(ps.line, Candidates(snapshot.value), got))
  {
    got := [];
    if snapshot.None? {
      return None, [];
    }
    var all, need := ReadSnapshot(snapshot.value);
    var tagged;
    tagged, got := AskInChunks(ps, need, read);
    found := Some(all + tagged);
  }

  method ReadSnapshot(seen: seq<Seen>) returns (all: seq<SimProcess>, need: seq<int>)
    ensures all == Launchds(seen) && need == Candidates(seen)
  {
    all, need := [], [];
    for i := 0 to |seen|
      invariant all == Launchds(seen[..i]) && need == Candidates(seen[..i])
    {
      assert seen[..i + 1][..i] == seen[..i];
      match seen[i]
      case LaunchdSim(pid, udid) =>
        if udid.Some? { all := all + [SimProcess(pid, udid.value)]; }
      case Candidate(pid) => need := need + [pid];
      case Unrelated =>
    }
    assert seen[..|seen|] == seen;
  }

  method AskInChunks(ps: Ps, need: seq<int>, read: string -> Option<SimProcess>)
      returns (found: seq<SimProcess>, ghost got: seq<bool>)
    requires Faithful(ps.line, ps.answer)
    modifies ps
    ensures ps.clock >= old(ps.clock)
    ensures Fair(ps, need, got, old(ps.clock), ps.clock)
    ensures found == Attributed(read, Printed(ps.line, need, got))
    // one query for every 128 of them, when none exits, and at worst one more for each
    ensures AllAlive(ps, need, ps.clock) ==> ps.clock == old(ps.clock) + Batches(|need|)
    ensures ps.clock <= old(ps.clock) + Batches(|need|) + |need|
  {
    hide Answered, Faithful, Batches;
    AnsweredNobody(ps, read, ps.clock);
    var start := 0;
    found, got := [], [];
    assert need[..0] == [];
    while start < |need|
      invariant 0 <= start <= |need| && (start == |need| || start % 128 == 0)
      invariant old(ps.clock) <= ps.clock && Answered(ps, read, need[..start], got, found, old(ps.clock), ps.clock)
    {
      var end := if start + PID_CHUNK > |need| then |need| else start + PID_CHUNK;
      ghost var t := ps.clock;
      assert need[..end] == need[..start] + need[start..end];
      OneMoreBatch(start, end, |need|);
      var more, g := AskChunk(ps, need[start..end], read);
      AnsweredMore(ps, read, need[..start], got, found, need[start..end], g, more, old(ps.clock), t, ps.clock);
      found, got, start := found + more, got + g, end;
    }
    assert need[..|need|] == need;
    AnsweredMeans(ps, read, need, got, found, old(ps.clock), ps.clock);
  }

  /** One batch, and what its answer says. */
  method AskChunk(ps: Ps, chunk: seq<int>, read: string -> Option<SimProcess>) returns (found: seq<SimProcess>, ghost got: seq<bool>)
    requires Faithful(ps.line, ps.answer)
    modifies ps
    ensures Fair(ps, chunk, got, old(ps.clock), ps.clock) && found == Attributed(read, Printed(ps.line, chunk, got))
    ensures ps.clock == old(ps.clock) + if AllAlive(ps, chunk, old(ps.clock)) then 1 else 1 + |chunk|
  {
    hide Attributed, AllAlive, Lines, Faithful;
    var out;
    out, got := EnvForChunk(ps, chunk);
    found := ReadLines(read, out);
  }

  /** What has been found for the pids asked about so far, and in how many queries. */
  ghost predicate Answered(ps: Ps, read: string -> Option<SimProcess>, pids: seq<int>, got: seq<bool>, found: seq<SimProcess>, t0: nat, t1: nat) {
    && Fair(ps, pids, got, t0, t1) && found == Attributed(read, Printed(ps.line, pids, got))
    && (AllAlive(ps, pids, t1) ==> t1 == t0 + Batches(|pids|))
    && t1 <= t0 + Batches(|pids|) + |pids|
  }

  lemma AnsweredNobody(ps: Ps, read: string -> Option<SimProcess>, t: nat)
    ensures Answered(ps, read, [], [], [], t, t)
  {
  }

  lemma AnsweredMeans(ps: Ps, read: string -> Option<SimProcess>, pids: seq<int>, got: seq<bool>, found: seq<SimProcess>, t0: nat, t1: nat)
    requires Answered(ps, read, pids, got, found, t0, t1)
    ensures Fair(ps, pids, got, t0, t1) && found == Attributed(read, Printed(ps.line, pids, got))
    ensures (AllAlive(ps, pids, t1) ==> t1 == t0 + Batches(|pids|)) && t1 <= t0 + Batches(|pids|) + |pids|
  {
  }

  lemma AnsweredMore(ps: Ps, read: string -> Option<SimProcess>, pids: seq<int>, got: seq<bool>, found: seq<SimProcess>, chunk: seq<int>, g: seq<bool>, more: seq<SimProcess>, t0: nat, t: nat, t1: nat)
    requires t0 <= t && Answered(ps, read, pids, got, found, t0, t)
    requires Fair(ps, chunk, g, t, t1) && more == Attributed(read, Printed(ps.line, chunk, g))
    requires t1 == t + (if AllAlive(ps, chunk, t) then 1 else 1 + |chunk|) && Batches(|pids + chunk|) == Batches(|pids|) + 1
    ensures Answered(ps, read, pids + chunk, got + g, found + more, t0, t1)
  {
    LivedOn(ps, pids, chunk, t, t1);
    FairSum(ps, pids, got, chunk, g, t0, t, t1);
    PrintedSum(ps.line, pids, got, chunk, g);
    AttributedSum(read, Printed(ps.line, pids, got), Printed(ps.line, chunk, g));
    hide AllAlive, Attributed, Printed, Batches;
  }

  /** How many batches of at most 128 it takes. */
  function Batches(n: nat): nat {
    (n + 127) / 128
  }

  lemma OneMoreBatch(start: nat, end: nat, n: nat)
    requires start % 128 == 0 && start < n && end == if start + 128 > n then n else start + 128
    ensures Batches(end) == Batches(start) + 1 && (end == n || end % 128 == 0)
  {
  }

  /** Who is alive now has been so all along. */
  lemma LivedOn(ps: Ps, a: seq<int>, b: seq<int>, t: nat, t1: nat)
    requires t <= t1
    ensures AllAlive(ps, a + b, t1) ==> AllAlive(ps, a, t) && AllAlive(ps, b, t)
  {
    forall p | p in a || p in b ensures p in a + b {}
  }

  method ReadLines(read: string -> Option<SimProcess>, out: string) returns (found: seq<SimProcess>)
    ensures found == Attributed(read, Lines(out, ""))
  {
    var lines := Split(out);
    found := [];
    for i := 0 to |lines|
      invariant found == Attributed(read, lines[..i])
    {
      assert lines[..i + 1][..i] == lines[..i];
      var p := read(lines[i]);
      if p.Some? { found := found + [p.value]; }
    }
    assert lines[..|lines|] == lines;
  }

  // ---------------------------------------------------------------- what the pass means

  /** The lines of the pids that live, each asked about alone. */
  ghost function Alone(ps: Ps, pids: seq<int>, t: nat): seq<string> {
    if pids == [] then []
    else
      var p := pids[|pids| - 1];
      Alone(ps, pids[..|pids| - 1], t) + if ps.Alive(p, t) then [ps.line(p)] else []
  }

  /** When no candidate exits during the pass, batching with fallback obtains
      exactly what asking one at a time would, for any list and any set of
      pids that had exited before. */
  lemma {:induction false} BatchingIsOneAtATime(ps: Ps, pids: seq<int>, got: seq<bool>, t0: nat, t1: nat)
    requires Fair(ps, pids, got, t0, t1)
    requires forall p :: p in pids ==> (ps.Alive(p, t0) <==> ps.Alive(p, t1))
    ensures Printed(ps.line, pids, got) == Alone(ps, pids, t0)
    decreases |pids|
  {
    if pids != [] {
      var n := |pids| - 1;
      assert pids == pids[..n] + [pids[n]];
      BatchingIsOneAtATime(ps, pids[..n], got[..n], t0, t1);
    }
  }
}
