/** The line-buffered log writer that hides secret values
    (internal/infra/terraform/redacting_writer.go). */
module Redaction {
  import opened Collections

  newtype Byte = b: int | 0 <= b < 256
  type Bytes = seq<Byte>
  type Secret = v: Bytes | v != [] witness [0]

  const NEWLINE: Byte := 10
  // "[REDACTED]"
  const REDACTED: Bytes := [91, 82, 69, 68, 65, 67, 84, 69, 68, 93]

  // ----- What the writer is specified by

  /** Every non-overlapping occurrence of `v`, taken from the left, becomes `r`. */
  function ReplaceAll(s: Bytes, v: Secret, r: Bytes): Bytes
    decreases |s|
  {
    if |s| < |v| then s
    else if v <= s then r + ReplaceAll(s[|v|..], v, r)
    else [s[0]] + ReplaceAll(s[1..], v, r)
  }

  ghost predicate LongestFirst(secrets: seq<Secret>) {
    forall i, j :: 0 <= i < j < |secrets| ==> |secrets[j]| <= |secrets[i]| && secrets[i] != secrets[j]
  }

  /** One pass of ReplaceAll per secret, in order. */
  function Redact(payload: Bytes, secrets: seq<Secret>): Bytes
    decreases secrets
  {
    if secrets == [] then payload
    else Redact(ReplaceAll(payload, secrets[0], REDACTED), secrets[1..])
  }

  /** Index of the first `b`, or -1. */
  function IndexByte(s: Bytes, b: Byte): (n: int)
    ensures -1 <= n < |s|
    ensures n >= 0 ==> s[n] == b && b !in s[..n]
    ensures n < 0 ==> b !in s
  {
    if s == [] then -1
    else if s[0] == b then 0
    else
      var n := IndexByte(s[1..], b);
      if n < 0 then -1 else n + 1
  }

  /** What leaves the writer while `s` is its buffer: the complete lines, each redacted. */
  function Emitted(s: Bytes, secrets: seq<Secret>): Bytes
    decreases |s|
  {
    var n := IndexByte(s, NEWLINE);
    if n < 0 then [] else Redact(s[..n + 1], secrets) + Emitted(s[n + 1..], secrets)
  }

  /** What stays in the buffer: the text after the last newline. */
  function Tail(s: Bytes): (t: Bytes)
    ensures NEWLINE !in t
    decreases |s|
  {
    var n := IndexByte(s, NEWLINE);
    if n < 0 then s else Tail(s[n + 1..])
  }

  /** The whole-stream specification: split into lines, redact each one. */
  function RedactStream(stream: Bytes, secrets: seq<Secret>): Bytes
    decreases |stream|
  {
    var n := IndexByte(stream, NEWLINE);
    if n < 0 then Redact(stream, secrets)
    else Redact(stream[..n + 1], secrets) + RedactStream(stream[n + 1..], secrets)
  }

  // ----- The writer itself

  /** The destination: a write stores all of its payload, or fails after part of it. */
  class Sink {
    var written: Bytes

    constructor ()
      ensures written == []
    {
      written := [];
    }

    method Write(payload: Bytes) returns (ok: bool)
      modifies this
      ensures old(written) <= written <= old(written) + payload
      ensures ok ==> written == old(written) + payload
    {
      if * {
        written := written + payload;
        ok := true;
      } else {
        var n: nat :| n <= |payload|;
        written := written + payload[..n];
        ok := false;
      }
    }
  }

  class RedactingWriter {
    const destination: Sink
    var redactions: seq<Secret>
    var pending: Bytes
    var failed: bool

    ghost predicate Valid()
      reads this
    {
      LongestFirst(redactions) && (!failed ==> NEWLINE !in pending)
    }

    /** Duplicates and empty values are dropped; equal lengths come in any order. */
    constructor (destination: Sink, values: seq<Bytes>)
      ensures Valid() && this.destination == destination && pending == [] && !failed
      ensures forall v :: v in redactions <==> v in values && v != []
    {
      this.destination := destination;
      pending, failed := [], false;
      var rest: set<Secret> := set v | v in values && v != [];
      var ordered: seq<Secret> := [];
      while rest != {}
        invariant LongestFirst(ordered)
        invariant forall v :: v in ordered || v in rest <==> v in values && v != []
        invariant forall u, v :: u in ordered && v in rest ==> |v| <= |u| && u != v
        decreases rest
      {
        LongestExists(rest);
        var v :| v in rest && forall u :: u in rest ==> |u| <= |v|;
        ordered := ordered + [v];
        rest := rest - {v};
      }
      redactions := ordered;
    }

    method Write(payload: Bytes) returns (n: nat, ok: bool)
      requires Valid()
      modifies this`pending, this`failed, destination
      ensures Valid()
      ensures ok == !failed && n == (if ok then |payload| else 0)
      ensures old(failed) ==> failed && pending == old(pending) && destination.written == old(destination.written)
      ensures ok ==> pending == Tail(old(pending) + payload)
                     && destination.written == old(destination.written) + Emitted(old(pending) + payload, redactions)
      ensures old(destination.written) <= destination.written
           <= old(destination.written) + Emitted(old(pending) + payload, redactions)
    {
      if failed {
        return 0, false;
      }
      ghost var all := pending + payload;
      ghost var before := destination.written;
      pending := pending + payload;
      while true
        invariant !failed && unchanged(`redactions)
        invariant Tail(pending) == Tail(all)
        invariant before <= destination.written
        invariant destination.written + Emitted(pending, redactions) == before + Emitted(all, redactions)
        decreases |pending|
      {
        var newline := IndexByte(pending, NEWLINE);
        if newline < 0 {
          break;
        }
        ghost var start := destination.written;
        ghost var line, rest := Redact(pending[..newline + 1], redactions), Emitted(pending[newline + 1..], redactions);
        assert Emitted(pending, redactions) == line + rest;
        Associative(start, line, rest);
        var written := WriteRedacted(pending[..newline + 1]);
        PrefixExtends(destination.written, start + line, rest);
        if !written {
          failed := true;
          return 0, false;
        }
        pending := pending[newline + 1..];
      }
      return |payload|, true;
    }

    method Flush() returns (ok: bool)
      requires Valid()
      modifies this`pending, this`failed, destination
      ensures Valid()
      ensures ok == !failed
      ensures old(failed) ==> failed && pending == old(pending) && destination.written == old(destination.written)
      ensures ok ==> pending == []
                     && destination.written == old(destination.written) + Redact(old(pending), redactions)
      ensures old(destination.written) <= destination.written
           <= old(destination.written) + Redact(old(pending), redactions)
    {
      if failed {
        return false;
      }
      if |pending| == 0 {
        RedactNothing(redactions);
        return true;
      }
      var written := WriteRedacted(pending);
      if !written {
        failed := true;
        return false;
      }
      pending := [];
      return true;
    }

    method WriteRedacted(payload: Bytes) returns (ok: bool)
      modifies destination
      ensures old(destination.written) <= destination.written
           <= old(destination.written) + Redact(payload, redactions)
      ensures ok ==> destination.written == old(destination.written) + Redact(payload, redactions)
    {
      var redacted := payload;
      for i := 0 to |redactions|
        invariant Redact(redacted, redactions[i..]) == Redact(payload, redactions)
      {
        redacted := ReplaceAll(redacted, redactions[i], REDACTED);
      }
      ok := destination.Write(redacted);
    }
  }

  lemma {:induction false} LongestExists(s: set<Secret>)
    requires s != {}
    ensures exists v :: v in s && forall u :: u in s ==> |u| <= |v|
  {
    var x :| x in s;
    var rest := s - {x};
    if rest != {} {
      LongestExists(rest);
      var y :| y in rest && forall u :: u in rest ==> |u| <= |y|;
      var best := if |x| <= |y| then y else x;
      assert best in s && forall u :: u in s ==> |u| <= |best| by {
        assert forall u :: u in s ==> u == x || u in rest;
      }
    } else {
      assert s == {x};
    }
  }

  lemma {:induction false} RedactNothing(secrets: seq<Secret>)
    ensures Redact([], secrets) == []
  {
    if secrets != [] {
      RedactNothing(secrets[1..]);
    }
  }

  // ----- Write chunking is irrelevant

  /** Buffer and destination after writes that all succeed, as Write's contract gives them. */
  datatype Progress = Progress(pending: Bytes, written: Bytes)

  function OneWrite(p: Progress, chunk: Bytes, secrets: seq<Secret>): Progress {
    Progress(Tail(p.pending + chunk), p.written + Emitted(p.pending + chunk, secrets))
  }

  function WriteAll(p: Progress, chunks: seq<Bytes>, secrets: seq<Secret>): Progress
    decreases chunks
  {
    if chunks == [] then p
    else
      WriteAll(OneWrite(p, chunks[0], secrets), chunks[1..], secrets)
  }

  function Concat(chunks: seq<Bytes>): Bytes {
    if chunks == [] then [] else chunks[0] + Concat(chunks[1..])
  }

  lemma {:induction false} IndexByteAppend(a: Bytes, b: Bytes, x: Byte)
    ensures IndexByte(a, x) >= 0 ==> IndexByte(a + b, x) == IndexByte(a, x)
  {
    if a != [] && a[0] != x {
      IndexByteAppend(a[1..], b, x);
      assert (a + b)[1..] == a[1..] + b;
    }
  }

  lemma FirstLine(a: Bytes, b: Bytes, n: int)
    requires n == IndexByte(a, NEWLINE) >= 0
    ensures IndexByte(a + b, NEWLINE) == n
    ensures (a + b)[..n + 1] == a[..n + 1] && (a + b)[n + 1..] == a[n + 1..] + b
  {
    IndexByteAppend(a, b, NEWLINE);
  }

  lemma {:induction false} SplitAppend(a: Bytes, b: Bytes, secrets: seq<Secret>)
    ensures Tail(a + b) == Tail(Tail(a) + b)
    ensures Emitted(a + b, secrets) == Emitted(a, secrets) + Emitted(Tail(a) + b, secrets)
    decreases |a|
  {
    var n := IndexByte(a, NEWLINE);
    if n >= 0 {
      FirstLine(a, b, n);
      var rest := a[n + 1..];
      SplitAppend(rest, b, secrets);
      Associative(Redact(a[..n + 1], secrets), Emitted(rest, secrets), Emitted(Tail(rest) + b, secrets));
    }
  }

  lemma {:induction false} StreamIsEmittedThenTail(s: Bytes, secrets: seq<Secret>)
    ensures RedactStream(s, secrets) == Emitted(s, secrets) + Redact(Tail(s), secrets)
    decreases |s|
  {
    var n := IndexByte(s, NEWLINE);
    if n >= 0 {
      var rest := s[n + 1..];
      StreamIsEmittedThenTail(rest, secrets);
      Associative(Redact(s[..n + 1], secrets), Emitted(rest, secrets), Redact(Tail(rest), secrets));
    }
  }

  lemma PrefixExtends(a: Bytes, b: Bytes, c: Bytes)
    ensures a <= b ==> a <= b + c
  {
  }

  lemma TwoWrites(p: Progress, a: Bytes, b: Bytes, secrets: seq<Secret>)
    ensures OneWrite(OneWrite(p, a, secrets), b, secrets) == OneWrite(p, a + b, secrets)
  {
    var q := p.pending + a;
    Associative(p.pending, a, b);
    SplitAppend(q, b, secrets);
    Associative(p.written, Emitted(q, secrets), Emitted(Tail(q) + b, secrets));
  }

  lemma {:induction false} WriteAllAt(p: Progress, chunks: seq<Bytes>, secrets: seq<Secret>)
    requires NEWLINE !in p.pending
    ensures WriteAll(p, chunks, secrets) == OneWrite(p, Concat(chunks), secrets)
    decreases chunks
  {
    if chunks == [] {
      assert p.pending + [] == p.pending;
    } else {
      WriteAllAt(OneWrite(p, chunks[0], secrets), chunks[1..], secrets);
      TwoWrites(p, chunks[0], Concat(chunks[1..]), secrets);
    }
  }

  /** Writes followed by one flush leave the per-line redaction of the whole stream, however
      the stream was cut; between calls the buffer is the newline-free tail. */
  lemma {:induction false} ChunkingIsIrrelevant(chunks: seq<Bytes>, secrets: seq<Secret>)
    ensures var p := WriteAll(Progress([], []), chunks, secrets);
            p.pending == Tail(Concat(chunks))
            && p.written + Redact(p.pending, secrets) == RedactStream(Concat(chunks), secrets)
  {
    WriteAllAt(Progress([], []), chunks, secrets);
    assert [] + Concat(chunks) == Concat(chunks);
    StreamIsEmittedThenTail(Concat(chunks), secrets);
  }

  // ----- Redaction is complete

  ghost predicate OccursAt(v: Bytes, s: Bytes, i: int) {
    0 <= i <= |s| - |v| && s[i..i + |v|] == v
  }

  ghost predicate Occurs(v: Bytes, s: Bytes) {
    exists i :: OccursAt(v, s, i)
  }

  ghost predicate OccursBefore(v: Bytes, s: Bytes, n: int) {
    exists i :: i < n && OccursAt(v, s, i)
  }

  /** `v` laid over `m` at shift `d` agrees with it wherever the two overlap. */
  ghost predicate Agree(v: Bytes, m: Bytes, d: int) {
    forall j :: 0 <= j < |v| && 0 <= d + j < |m| ==> v[j] == m[d + j]
  }

  /** `v` can share no position with a copy of `m`. */
  ghost predicate ApartFrom(v: Bytes, m: Bytes) {
    forall d :: -|v| < d < |m| ==> !Agree(v, m, d)
  }

  ghost predicate NoInnerNewline(v: Bytes) {
    forall i :: 0 <= i < |v| - 1 ==> v[i] != NEWLINE
  }

  /** What makes a secret safe; it can be checked when the secret is configured. */
  ghost predicate Isolated(v: Bytes) {
    NoInnerNewline(v) && ApartFrom(v, REDACTED)
  }

  /** The first `k` bytes of `v` end `x` and the others start `y`. */
  ghost predicate StraddlesAt(v: Bytes, x: Bytes, y: Bytes, k: int) {
    0 < k < |v| && k <= |x| && |v| - k <= |y| && x[|x| - k..] == v[..k] && y[..|v| - k] == v[k..]
  }

  ghost predicate Straddles(v: Bytes, x: Bytes, y: Bytes) {
    exists k :: StraddlesAt(v, x, y, k)
  }

  lemma OccursAtLeft(v: Bytes, x: Bytes, y: Bytes, i: int)
    ensures i <= |x| - |v| ==> (OccursAt(v, x, i) <==> OccursAt(v, x + y, i))
  {
    if 0 <= i <= |x| - |v| {
      assert x[i..i + |v|] == (x + y)[i..i + |v|];
    }
  }

  lemma OccursAtRight(v: Bytes, x: Bytes, y: Bytes, i: int)
    ensures |x| <= i ==> (OccursAt(v, y, i - |x|) <==> OccursAt(v, x + y, i))
  {
    var k := i - |x|;
    if 0 <= k <= |y| - |v| {
      assert y[k..k + |v|] == (x + y)[i..i + |v|];
    }
  }

  lemma OccursInside(v: Bytes, a: Bytes, s: Bytes, b: Bytes)
    ensures Occurs(v, s) ==> Occurs(v, a + s + b)
  {
    if Occurs(v, s) {
      var i :| OccursAt(v, s, i);
      OccursAtRight(v, a, s, |a| + i);
      OccursAtLeft(v, a + s, b, |a| + i);
    }
  }

  lemma OccursAcross(v: Bytes, x: Bytes, y: Bytes)
    ensures Occurs(v, x + y) ==> Occurs(v, x) || Occurs(v, y) || Straddles(v, x, y)
  {
    if Occurs(v, x + y) {
      var i :| OccursAt(v, x + y, i);
      OccursAtLeft(v, x, y, i);
      OccursAtRight(v, x, y, i);
      if |x| - |v| < i < |x| {
        var k := |x| - i;
        assert forall j :: 0 <= j < |v| ==> v[j] == (x + y)[i..i + |v|][j] == (x + y)[i + j];
        assert forall j :: 0 <= j < k ==> x[|x| - k..][j] == v[j];
        assert forall j :: 0 <= j < |v| - k ==> y[j] == v[k..][j];
        assert StraddlesAt(v, x, y, k);
      }
    }
  }

  lemma OccursAroundMarker(v: Bytes, m: Bytes, a: Bytes, b: Bytes, i: int)
    requires OccursAt(v, a + m + b, i)
    ensures OccursAt(v, a, i) || OccursAt(v, b, i - |a| - |m|) || !ApartFrom(v, m)
  {
    var s := a + m + b;
    if i + |v| <= |a| {
      OccursAtLeft(v, a + m, b, i);
      OccursAtLeft(v, a, m, i);
    } else if |a| + |m| <= i {
      OccursAtRight(v, a + m, b, i);
    } else {
      var d := i - |a|;
      forall j | 0 <= j < |v| && 0 <= d + j < |m|
        ensures v[j] == m[d + j]
      {
        assert v[j] == s[i..i + |v|][j] == s[i + j];
      }
      assert Agree(v, m, d);
    }
  }

  lemma StraddlesAfterMarker(v: Bytes, m: Bytes, a: Bytes, b: Bytes, y: Bytes)
    requires m != []
    ensures Straddles(v, a + m + b, y) ==> Straddles(v, b, y) || !ApartFrom(v, m)
  {
    var x := a + m + b;
    if Straddles(v, x, y) {
      var k :| StraddlesAt(v, x, y, k);
      if k <= |b| {
        assert b[|b| - k..] == x[|x| - k..];
        assert StraddlesAt(v, b, y, k);
      } else {
        var d := |m| + |b| - k;
        forall j | 0 <= j < |v| && 0 <= d + j < |m|
          ensures v[j] == m[d + j]
        {
          assert v[j] == x[|x| - k..][j];
        }
        assert Agree(v, m, d);
      }
    }
  }

  lemma StraddlesLonger(v: Bytes, a: Bytes, x: Bytes, y: Bytes)
    ensures Straddles(v, x, y) ==> Straddles(v, a + x, y)
  {
    if Straddles(v, x, y) {
      var k :| StraddlesAt(v, x, y, k);
      assert (a + x)[|a + x| - k..] == x[|x| - k..];
      assert StraddlesAt(v, a + x, y, k);
    }
  }

  lemma StraddlesLineEnd(v: Bytes, line: Bytes, y: Bytes)
    requires line != [] && line[|line| - 1] == NEWLINE
    ensures Straddles(v, line, y) ==> !NoInnerNewline(v)
  {
    if Straddles(v, line, y) {
      var k :| StraddlesAt(v, line, y, k);
      assert v[k - 1] == line[|line| - k..][k - 1];
    }
  }

  /** A replacement pass creates no occurrence of a text that keeps apart from the marker,
      neither inside (after any prefix `p`) nor across the end. */
  lemma {:induction false} PassCreatesNothing(v: Bytes, p: Bytes, s: Bytes, u: Secret, y: Bytes)
    requires ApartFrom(v, REDACTED)
    ensures Occurs(v, p + ReplaceAll(s, u, REDACTED)) ==> Occurs(v, p + s)
    ensures Straddles(v, p + ReplaceAll(s, u, REDACTED), y) ==> Straddles(v, p + s, y)
    decreases |s|
  {
    var r := ReplaceAll(s, u, REDACTED);
    if |s| < |u| {
    } else if u <= s {
      var rest := s[|u|..];
      var r' := ReplaceAll(rest, u, REDACTED);
      assert p + r == p + REDACTED + r';
      assert p + s == (p + u) + rest == [] + p + s == (p + u) + rest + [];
      PassCreatesNothing(v, [], rest, u, y);
      assert [] + r' == r' && [] + rest == rest;
      if Occurs(v, p + r) {
        var i :| OccursAt(v, p + REDACTED + r', i);
        OccursAroundMarker(v, REDACTED, p, r', i);
      }
      OccursInside(v, [], p, s);
      OccursInside(v, p + u, rest, []);
      StraddlesAfterMarker(v, REDACTED, p, r', y);
      StraddlesLonger(v, p + u, rest, y);
    } else {
      var r' := ReplaceAll(s[1..], u, REDACTED);
      assert p + r == (p + [s[0]]) + r';
      assert p + s == (p + [s[0]]) + s[1..];
      PassCreatesNothing(v, p + [s[0]], s[1..], u, y);
    }
  }

  lemma NotAtStart(v: Bytes, p: Bytes, s: Bytes)
    ensures OccursAt(v, p + s, |p|) ==> v <= s
  {
    OccursAtRight(v, p, s, |p|);
  }

  lemma NotAtByte(v: Bytes, p: Bytes, s: Bytes)
    requires s != [] && !(v <= s)
    ensures OccursBefore(v, (p + [s[0]]) + s[1..], |p| + 1) ==> OccursBefore(v, p + s, |p|)
  {
    Associative(p, [s[0]], s[1..]);
    assert [s[0]] + s[1..] == s;
    NotAtStart(v, p, s);
  }

  lemma MarkerStepped(v: Secret, p: Bytes, r: Bytes, s: Bytes)
    requires ApartFrom(v, REDACTED) && !Occurs(v, r)
    ensures Occurs(v, p + REDACTED + r) ==> OccursBefore(v, p + s, |p|)
  {
    if Occurs(v, p + REDACTED + r) {
      var i :| OccursAt(v, p + REDACTED + r, i);
      OccursAroundMarker(v, REDACTED, p, r, i);
      OccursAtLeft(v, p, s, i);
    }
  }

  /** After its own pass a secret is gone, unless the scan had already stepped over it in `p`. */
  lemma {:induction false} PassRemoves(v: Secret, p: Bytes, s: Bytes)
    requires ApartFrom(v, REDACTED)
    ensures Occurs(v, p + ReplaceAll(s, v, REDACTED)) ==> OccursBefore(v, p + s, |p|)
    decreases |s|, 0
  {
    var r := ReplaceAll(s, v, REDACTED);
    if |s| < |v| {
    } else if v <= s {
      var r' := ReplaceAll(s[|v|..], v, REDACTED);
      Associative(p, REDACTED, r');
      PassRemovesAll(v, s[|v|..]);
      MarkerStepped(v, p, r', s);
    } else {
      Associative(p, [s[0]], ReplaceAll(s[1..], v, REDACTED));
      PassRemoves(v, p + [s[0]], s[1..]);
      NotAtByte(v, p, s);
    }
  }

  lemma PassRemovesAll(v: Secret, s: Bytes)
    requires ApartFrom(v, REDACTED)
    ensures !Occurs(v, ReplaceAll(s, v, REDACTED))
    decreases |s|, 1
  {
    PassRemoves(v, [], s);
    var r := ReplaceAll(s, v, REDACTED);
    assert [] + r == r && [] + s == s;
  }

  lemma {:induction false} RedactCreatesNothing(v: Bytes, s: Bytes, secrets: seq<Secret>, y: Bytes)
    requires ApartFrom(v, REDACTED)
    ensures Occurs(v, Redact(s, secrets)) ==> Occurs(v, s)
    ensures Straddles(v, Redact(s, secrets), y) ==> Straddles(v, s, y)
    decreases |secrets|
  {
    if secrets != [] {
      var r := ReplaceAll(s, secrets[0], REDACTED);
      RedactCreatesNothing(v, r, secrets[1..], y);
      PassCreatesNothing(v, [], s, secrets[0], y);
      assert [] + r == r && [] + s == s;
    }
  }

  lemma {:induction false} RedactRemoves(v: Secret, s: Bytes, secrets: seq<Secret>)
    requires v in secrets && ApartFrom(v, REDACTED)
    ensures !Occurs(v, Redact(s, secrets))
    decreases |secrets|
  {
    var r := ReplaceAll(s, secrets[0], REDACTED);
    if v == secrets[0] {
      PassRemovesAll(v, s);
      RedactCreatesNothing(v, r, secrets[1..], []);
    } else {
      RedactRemoves(v, r, secrets[1..]);
    }
  }

  /** No isolated secret occurs in the redacted stream, whatever the other secrets are, and
      although later passes insert text and the lines are joined again. */
  lemma {:induction false} RedactionIsComplete(v: Secret, stream: Bytes, secrets: seq<Secret>)
    requires v in secrets && Isolated(v)
    ensures !Occurs(v, RedactStream(stream, secrets))
    decreases |stream|
  {
    var n := IndexByte(stream, NEWLINE);
    if n < 0 {
      RedactRemoves(v, stream, secrets);
    } else {
      var line, rest := stream[..n + 1], stream[n + 1..];
      RedactRemoves(v, line, secrets);
      RedactionIsComplete(v, rest, secrets);
      OccursAcross(v, Redact(line, secrets), RedactStream(rest, secrets));
      RedactCreatesNothing(v, line, secrets, RedactStream(rest, secrets));
      StraddlesLineEnd(v, line, RedactStream(rest, secrets));
    }
  }

  /** The writer's output after any writes and a flush hides every isolated secret; so does
      what a failing destination keeps of it, since that is a prefix. */
  lemma WriterHidesSecrets(v: Secret, chunks: seq<Bytes>, secrets: seq<Secret>, kept: Bytes)
    requires v in secrets && Isolated(v)
    requires var p := WriteAll(Progress([], []), chunks, secrets);
             kept <= p.written + Redact(p.pending, secrets)
    ensures !Occurs(v, kept)
  {
    ChunkingIsIrrelevant(chunks, secrets);
    var output := RedactStream(Concat(chunks), secrets);
    RedactionIsComplete(v, Concat(chunks), secrets);
    assert output == [] + kept + output[|kept|..];
    OccursInside(v, [], kept, output[|kept|..]);
  }

  // ----- A pass changes nothing but the secret

  /** The pieces with `v` between them. */
  function Joined(pieces: seq<Bytes>, v: Bytes): Bytes {
    if pieces == [] then []
    else if |pieces| == 1 then pieces[0]
    else pieces[0] + v + Joined(pieces[1..], v)
  }

  /** The first `v` comes right after the piece, or not at all after the last one. */
  ghost predicate IsPiece(piece: Bytes, v: Bytes, last: bool) {
    if last then !Occurs(v, piece) else !OccursBefore(v, piece + v, |piece|)
  }

  ghost predicate ArePieces(pieces: seq<Bytes>, v: Bytes) {
    pieces != [] && forall i :: 0 <= i < |pieces| ==> IsPiece(pieces[i], v, i == |pieces| - 1)
  }

  lemma OccursLater(b: Byte, piece: Bytes, v: Bytes, i: int)
    requires OccursAt(v, [b] + piece, i)
    ensures i == 0 ==> v <= [b] + piece
    ensures i > 0 ==> OccursAt(v, piece, i - 1)
  {
    OccursAtRight(v, [b], piece, i);
  }

  lemma PieceGrows(b: Byte, piece: Bytes, v: Secret, last: bool)
    requires IsPiece(piece, v, last) && !(v <= if last then [b] + piece else [b] + piece + v)
    ensures IsPiece([b] + piece, v, last)
  {
    if last {
      forall i
        ensures !OccursAt(v, [b] + piece, i)
      {
        if OccursAt(v, [b] + piece, i) {
          OccursLater(b, piece, v, i);
        }
      }
    } else {
      assert [b] + (piece + v) == [b] + piece + v;
      forall i | i < |piece| + 1
        ensures !OccursAt(v, [b] + piece + v, i)
      {
        if OccursAt(v, [b] + piece + v, i) {
          OccursLater(b, piece + v, v, i);
        }
      }
    }
  }

  lemma JoinedGrows(b: Byte, pieces: seq<Bytes>, v: Bytes)
    requires pieces != []
    ensures Joined([[b] + pieces[0]] + pieces[1..], v) == [b] + Joined(pieces, v)
  {
    var grown := [[b] + pieces[0]] + pieces[1..];
    assert grown[1..] == pieces[1..];
    if |pieces| > 1 {
      Associative([b], pieces[0], v);
      Associative([b], pieces[0] + v, Joined(pieces[1..], v));
    }
  }

  lemma PiecesGrow(b: Byte, pieces: seq<Bytes>, v: Secret)
    requires ArePieces(pieces, v) && !(v <= [b] + Joined(pieces, v))
    ensures ArePieces([[b] + pieces[0]] + pieces[1..], v)
  {
    var one := |pieces| == 1;
    var first := if one then [b] + pieces[0] else [b] + pieces[0] + v;
    assert first <= [b] + Joined(pieces, v) by {
      Associative([b], pieces[0], v);
      Associative([b], pieces[0] + v, Joined(pieces[1..], v));
    }
    PieceGrows(b, pieces[0], v, one);
    var grown := [[b] + pieces[0]] + pieces[1..];
    forall i | 0 <= i < |grown|
      ensures IsPiece(grown[i], v, i == |grown| - 1)
    {
      assert IsPiece(pieces[i], v, i == |pieces| - 1);
    }
  }

  lemma PiecesStart(pieces: seq<Bytes>, v: Secret)
    requires ArePieces(pieces, v)
    ensures ArePieces([[]] + pieces, v)
  {
    var started := [[]] + pieces;
    forall i | 0 <= i < |started|
      ensures IsPiece(started[i], v, i == |started| - 1)
    {
      assert i > 0 ==> IsPiece(pieces[i - 1], v, i - 1 == |pieces| - 1);
    }
  }

  lemma JoinedStarts(pieces: seq<Bytes>, v: Bytes)
    requires pieces != []
    ensures Joined([[]] + pieces, v) == v + Joined(pieces, v)
  {
    var started := [[]] + pieces;
    assert started[1..] == pieces && [] + v == v;
  }

  lemma JoinedOne(s: Bytes, v: Bytes)
    ensures Joined([s], v) == s
  {
  }

  /** A pass takes a text apart at the occurrences of the secret, each the first after the one before it, and puts the
      very same pieces together again with the marker between them. */
  lemma {:induction false} PassReplacesOccurrences(s: Bytes, v: Secret, r: Bytes) returns (pieces: seq<Bytes>)
    ensures ArePieces(pieces, v) && s == Joined(pieces, v) && ReplaceAll(s, v, r) == Joined(pieces, r)
    decreases |s|
  {
    if |s| < |v| {
      pieces := [s];
      JoinedOne(s, v);
      JoinedOne(s, r);
    } else if v <= s {
      var rest := PassReplacesOccurrences(s[|v|..], v, r);
      pieces := [[]] + rest;
      PiecesStart(rest, v);
      JoinedStarts(rest, v);
      JoinedStarts(rest, r);
    } else {
      var rest := PassReplacesOccurrences(s[1..], v, r);
      pieces := [[s[0]] + rest[0]] + rest[1..];
      JoinedGrows(s[0], rest, v);
      JoinedGrows(s[0], rest, r);
      PiecesGrow(s[0], rest, v);
    }
  }

  // ----- Isolation is also necessary

  lemma {:induction false} NoMatchNoChange(s: Bytes, v: Secret, r: Bytes)
    ensures ReplaceAll(s, v, r) == s || Occurs(v, s)
    decreases |s|
  {
    if |s| >= |v| {
      if v <= s {
        assert OccursAt(v, s, 0);
      } else {
        NoMatchNoChange(s[1..], v, r);
        OccursInside(v, [s[0]], s[1..], []);
        assert [s[0]] + s[1..] + [] == s;
      }
    }
  }

  lemma {:induction false} RedactUnchanged(s: Bytes, secrets: seq<Secret>)
    requires forall v :: v in secrets ==> !Occurs(v, s)
    ensures Redact(s, secrets) == s
    decreases |secrets|
  {
    if secrets != [] {
      NoMatchNoChange(s, secrets[0], REDACTED);
      RedactUnchanged(s, secrets[1..]);
    }
  }

  /** A stream without secrets passes through byte for byte. */
  lemma {:induction false} CleanStreamIsUnchanged(stream: Bytes, secrets: seq<Secret>)
    requires forall v :: v in secrets ==> !Occurs(v, stream)
    ensures RedactStream(stream, secrets) == stream
    decreases |stream|
  {
    var n := IndexByte(stream, NEWLINE);
    if n < 0 {
      RedactUnchanged(stream, secrets);
    } else {
      var line, rest := stream[..n + 1], stream[n + 1..];
      assert stream == line + rest == [] + line + rest == line + rest + [];
      forall v | v in secrets
        ensures !Occurs(v, line) && !Occurs(v, rest)
      {
        OccursInside(v, [], line, rest);
        OccursInside(v, line, rest, []);
      }
      RedactUnchanged(line, secrets);
      CleanStreamIsUnchanged(rest, secrets);
    }
  }

  lemma SingletonOccurs(s: Bytes, c: Byte)
    ensures Occurs([c], s) ==> c in s
  {
    if Occurs([c], s) {
      var i :| OccursAt([c], s, i);
      assert s[i] == s[i..i + 1][0];
    }
  }

  lemma ShortStays(s: Bytes, v: Secret)
    requires |s| <= |v|
    ensures s == v || Redact(s, [v]) == s
  {
    NoMatchNoChange(s, v, REDACTED);
    if Occurs(v, s) {
      var i :| OccursAt(v, s, i);
      assert s == s[i..i + |v|];
    }
  }

  lemma {:induction false} ShorterPiecesStay(s: Bytes, v: Secret)
    requires |s| <= |v|
    ensures RedactStream(s, [v]) == s || (s == v && NoInnerNewline(v))
    decreases |s|
  {
    var n := IndexByte(s, NEWLINE);
    if n < 0 {
      ShortStays(s, v);
    } else {
      var line := s[..n + 1];
      assert s == line + s[n + 1..];
      ShortStays(line, v);
      ShorterPiecesStay(s[n + 1..], v);
      assert line == v ==> s == v && NEWLINE !in v[..|v| - 1];
    }
  }

  /** A secret with an inner newline is cut into lines before anything looks for it. */
  lemma InnerNewlineLeaks(v: Secret)
    requires !NoInnerNewline(v)
    ensures Occurs(v, RedactStream(v, [v]))
  {
    ShorterPiecesStay(v, v);
    assert OccursAt(v, v, 0);
  }

  lemma ByteStays(b: Byte, s: Bytes, c: Byte, r: Bytes)
    requires b != c
    ensures ReplaceAll([b] + s, [c], r) == [b] + ReplaceAll(s, [c], r)
  {
    assert ([b] + s)[0] == b && ([b] + s)[1..] == s;
  }

  lemma ByteGoes(c: Byte, y: Bytes, r: Bytes)
    requires c !in y
    ensures ReplaceAll([c] + y, [c], r) == r + y
  {
    assert ([c] + y)[1..] == y;
    SingletonOccurs(y, c);
    NoMatchNoChange(y, [c], r);
  }

  lemma {:induction false} ReplaceOnly(x: Bytes, c: Byte, y: Bytes, r: Bytes)
    requires c !in x && c !in y
    ensures ReplaceAll(x + [c] + y, [c], r) == x + r + y
  {
    if x == [] {
      ByteGoes(c, y, r);
      assert x + [c] + y == [c] + y && x + r + y == r + y;
    } else {
      var front, rest := [x[0]], x[1..];
      ReplaceOnly(rest, c, y, r);
      ByteStays(x[0], rest + [c] + y, c, r);
      assert front + (rest + [c] + y) == x + [c] + y;
      assert front + (rest + r + y) == x + r + y;
    }
  }

  lemma OneLine(s: Bytes, secrets: seq<Secret>)
    requires NoInnerNewline(s)
    ensures RedactStream(s, secrets) == Redact(s, secrets)
  {
    var n := IndexByte(s, NEWLINE);
    if n >= 0 {
      assert s[..n + 1] == s && s[n + 1..] == [];
      RedactNothing(secrets);
    }
  }

  lemma TooShortAround(v: Bytes, x: Bytes, c: Byte, y: Bytes)
    requires |x| < |v| && |y| < |v|
    ensures Occurs(v, x + [c] + y) ==> c in v
  {
    var s := x + [c] + y;
    if Occurs(v, s) {
      var i :| OccursAt(v, s, i);
      assert v[|x| - i] == s[i..i + |v|][|x| - i];
    }
  }

  /** What `v` has to the left and to the right of a marker laid under it at shift `d`. */
  function LeftOf(v: Bytes, d: int): (x: Bytes)
    requires -|v| < d
  {
    if d < 0 then v[..-d] else []
  }

  function RightOf(v: Bytes, m: Bytes, d: int): (y: Bytes)
    requires d < |m|
  {
    if |m| - d < |v| then v[|m| - d..] else []
  }

  lemma AgreementOccurs(v: Bytes, m: Bytes, d: int)
    requires -|v| < d < |m| && Agree(v, m, d)
    ensures Occurs(v, LeftOf(v, d) + m + RightOf(v, m, d))
  {
    var x, y := LeftOf(v, d), RightOf(v, m, d);
    var out := x + m + y;
    if d < 0 {
      assert out[..|v|] == v;
      assert OccursAt(v, out, 0);
    } else {
      assert out[d..d + |v|] == v;
      assert OccursAt(v, out, d);
    }
  }

  lemma LeakShape(v: Secret, m: Bytes, d: int, c: Byte)
    requires c !in v && c != NEWLINE && NoInnerNewline(v) && -|v| < d < |m|
    ensures c !in LeftOf(v, d) && |LeftOf(v, d)| < |v|
    ensures c !in RightOf(v, m, d) && |RightOf(v, m, d)| < |v|
    ensures NoInnerNewline(LeftOf(v, d) + [c] + RightOf(v, m, d))
  {
  }

  /** A secret that can overlap the marker is rebuilt around the marker of a one-byte secret. */
  lemma OverlapLeaks(v: Secret, d: int, c: Byte) returns (stream: Bytes)
    requires c !in v && c != NEWLINE && NoInnerNewline(v)
    requires -|v| < d < |REDACTED| && Agree(v, REDACTED, d)
    ensures Occurs(v, RedactStream(stream, [v, [c]]))
  {
    var x, y := LeftOf(v, d), RightOf(v, REDACTED, d);
    stream := x + [c] + y;
    LeakShape(v, REDACTED, d, c);
    OneLine(stream, [v, [c]]);
    TwoPasses(stream, v, [c]);
    assert ReplaceAll(stream, v, REDACTED) == stream by {
      TooShortAround(v, x, c, y);
      NoMatchNoChange(stream, v, REDACTED);
    }
    ReplaceOnly(x, c, y, REDACTED);
    AgreementOccurs(v, REDACTED, d);
  }

  lemma TwoPasses(s: Bytes, u: Secret, v: Secret)
    ensures Redact(s, [u, v]) == ReplaceAll(ReplaceAll(s, u, REDACTED), v, REDACTED)
  {
    assert [u, v][1..] == [v];
    assert Redact(ReplaceAll(s, u, REDACTED), [v]) == Redact(ReplaceAll(ReplaceAll(s, u, REDACTED), v, REDACTED), []);
  }

  lemma Leak(v: Secret, c: Byte) returns (stream: Bytes, secrets: seq<Secret>)
    requires c !in v && c != NEWLINE && !Isolated(v)
    ensures LongestFirst(secrets) && v in secrets && Occurs(v, RedactStream(stream, secrets))
  {
    if !NoInnerNewline(v) {
      InnerNewlineLeaks(v);
      stream, secrets := v, [v];
    } else {
      var d :| -|v| < d < |REDACTED| && Agree(v, REDACTED, d);
      stream := OverlapLeaks(v, d, c);
      secrets := [v, [c]];
    }
  }

  /** The exact condition: a secret stays hidden beside every choice of other secrets if and
      only if it is isolated. The byte `c` is any value that the secret does not contain. */
  lemma HiddenIffIsolated(v: Secret, c: Byte)
    requires c !in v && c != NEWLINE
    ensures (forall stream: Bytes, secrets: seq<Secret> :: LongestFirst(secrets) && v in secrets
                                                           ==> !Occurs(v, RedactStream(stream, secrets)))
       <==> Isolated(v)
  {
    if Isolated(v) {
      forall stream: Bytes, secrets: seq<Secret> | v in secrets
        ensures !Occurs(v, RedactStream(stream, secrets))
      {
        RedactionIsComplete(v, stream, secrets);
      }
    } else {
      var stream, secrets := Leak(v, c);
      assert exists stream: Bytes, secrets: seq<Secret> ::
          LongestFirst(secrets) && v in secrets && Occurs(v, RedactStream(stream, secrets));
    }
  }

  /** The simple sufficient rule: no newline and no byte of the marker. */
  lemma DisjointBytesAreIsolated(v: Bytes)
    requires v != [] && NEWLINE !in v
    requires forall b :: b in v ==> b !in REDACTED
    ensures Isolated(v)
  {
    forall d | -|v| < d < |REDACTED|
      ensures !Agree(v, REDACTED, d)
    {
      var j := if d < 0 then -d else 0;
      assert v[j] in v && REDACTED[d + j] in REDACTED;
    }
  }
}
