/** Exactly which requester IDs make the text that is signed ambiguous. */
module AmbiguousPayloads {
  import opened MachineInt
  import opened Protocol
  import opened Signing

  /** The text before and after its last colon. */
  function LastSplit(s: string): (r: (string, string))
    requires ':' in s
    ensures s == r.0 + ":" + r.1 && ':' !in r.1
    decreases |s|
  {
    var n := |s| - 1;
    if s[n] == ':' then
      assert s == s[..n] + ":" + "";
      (s[..n], "")
    else
      assert s == s[..n] + [s[n]];
      var (head, last) := LastSplit(s[..n]);
      (head, last + [s[n]])
  }

  lemma LastSplitIs(x: string, a: string)
    requires ':' !in a
    ensures LastSplit(x + ":" + a) == (x, a)
  {
    var (head, last) := LastSplit(x + ":" + a);
    SplitLast(x, a, head, last);
  }

  function DigitValue(c: char): (d: nat)
    requires '0' <= c <= '9'
    ensures d < 10 && Digit(d) == c
  {
    (c - '0') as int
  }

  /** The number a text of digits shows. */
  function Value(s: string): nat
    requires AllDigits(s)
    decreases |s|
  {
    if s == "" then 0 else Value(s[..|s| - 1]) * 10 + DigitValue(s[|s| - 1])
  }

  predicate AllDigits(s: string) { forall i :: 0 <= i < |s| ==> '0' <= s[i] <= '9' }

  predicate CanonicalNat(s: string) { s != "" && AllDigits(s) && (s[0] == '0' ==> |s| == 1) }

  /** A text that `%d` can print of an `int64`: no sign but a minus, no leading zero, no minus zero, in range. */
  predicate Canonical(s: string) {
    if s != "" && s[0] == '-' then CanonicalNat(s[1..]) && 0 < Value(s[1..]) <= TWO_63
    else CanonicalNat(s) && Value(s) < TWO_63
  }

  lemma DigitsStep(v: nat, d: nat)
    requires v > 0 && d < 10
    ensures Digits(v * 10 + d) == Digits(v) + [Digit(d)]
  {
    assert (v * 10 + d) / 10 == v && (v * 10 + d) % 10 == d;
  }

  lemma ValueSnoc(s: string, d: nat)
    requires AllDigits(s) && d < 10
    ensures AllDigits(s + [Digit(d)]) && Value(s + [Digit(d)]) == Value(s) * 10 + d
  {
    assert (s + [Digit(d)])[..|s|] == s;
  }

  /** `s` reads back: its value prints as `s`, and is 0 only for a leading zero. */
  predicate ReadsBack(s: string)
    requires AllDigits(s)
  {
    s != "" && Digits(Value(s)) == s && (s[0] != '0' ==> Value(s) > 0)
  }

  lemma OneDigitReadsBack(d: nat)
    requires d < 10
    ensures AllDigits([Digit(d)]) && ReadsBack([Digit(d)])
  {
    ValueSnoc("", d);
    assert "" + [Digit(d)] == [Digit(d)];
  }

  lemma MoreDigitsReadBack(s: string, d: nat)
    requires AllDigits(s) && ReadsBack(s) && s[0] != '0' && d < 10
    ensures AllDigits(s + [Digit(d)]) && ReadsBack(s + [Digit(d)])
  {
    ValueSnoc(s, d);
    DigitsStep(Value(s), d);
  }

  lemma {:induction false} DigitsOfValue(s: string)
    requires CanonicalNat(s)
    ensures ReadsBack(s)
    decreases |s|
  {
    var init, d := s[..|s| - 1], DigitValue(s[|s| - 1]);
    assert s == init + [Digit(d)];
    if |s| == 1 {
      OneDigitReadsBack(d);
    } else {
      assert init[0] == s[0];
      DigitsOfValue(init);
      MoreDigitsReadBack(init, d);
    }
  }

  lemma {:induction false} ValueOfDigits(n: nat)
    ensures CanonicalNat(Digits(n)) && Value(Digits(n)) == n && (n > 0 ==> Digits(n)[0] != '0')
  {
    if n >= 10 {
      ValueOfDigits(n / 10);
      ValueSnoc(Digits(n / 10), n % 10);
    } else {
      ValueSnoc("", n);
      assert "" + [Digit(n)] == Digits(n);
    }
  }

  lemma CanonicalIsPrinted(s: string) returns (n: int64)
    requires Canonical(s)
    ensures Decimal(n) == s
  {
    if s[0] == '-' {
      DigitsOfValue(s[1..]);
      var v: int := Value(s[1..]);
      n := -v;
      assert s == "-" + s[1..];
    } else {
      DigitsOfValue(s);
      n := Value(s);
    }
  }

  lemma PrintedIsCanonical(n: int64)
    ensures Canonical(Decimal(n)) && ':' !in Decimal(n)
  {
    var m: int := n;
    SignShows(m);
    DecimalHasNoColon(m);
    if m < 0 {
      ValueOfDigits(-m);
      assert Decimal(m)[1..] == Digits(-m);
    } else {
      ValueOfDigits(m);
    }
  }

  /** Canonical texts are just what is printed. */
  lemma CanonicalIff(s: string)
    ensures Canonical(s) <==> exists n: int64 :: Decimal(n) == s
  {
    if Canonical(s) {
      var n := CanonicalIsPrinted(s);
    } else {
      forall n: int64
        ensures Decimal(n) != s
      {
        PrintedIsCanonical(n);
      }
    }
  }

  lemma Regroup(x: string, y: string, z: string)
    ensures x + ":" + (y + ":" + z) == x + ":" + y + ":" + z
  {}

  /** The parts of a text between its colons. */
  function Segments(s: string): (r: seq<string>)
    ensures |r| >= 1 && (':' in s <==> |r| > 1)
    decreases |s|
  {
    if ':' !in s then [s] else Segments(LastSplit(s).0) + [LastSplit(s).1]
  }

  lemma SegmentsSnoc(s: string, last: string)
    requires ':' !in last
    ensures Segments(s + ":" + last) == Segments(s) + [last]
  {
    LastSplitIs(s, last);
  }

  lemma {:induction false} SegmentsJoin(s: string, t: string)
    ensures Segments(s + ":" + t) == Segments(s) + Segments(t)
    decreases |t|
  {
    if ':' !in t {
      SegmentsSnoc(s, t);
    } else {
      var (head, last) := LastSplit(t);
      Regroup(s, head, last);
      SegmentsJoin(s, head);
      SegmentsSnoc(s + ":" + head, last);
      assert Segments(s) + Segments(head) + [last] == Segments(s) + Segments(t);
    }
  }

  /** The last `k` of these segments, or all of them if there are fewer, are canonical. */
  predicate Tail(a: seq<string>, k: nat) {
    forall i :: 0 <= i < |a| && |a| - k <= i ==> Canonical(a[i])
  }

  /** There are more than `k` segments and the last `k` are canonical. */
  predicate EndsIn(a: seq<string>, k: nat) { |a| > k && Tail(a, k) }

  /** If the last `k` segments are numbers and more are put behind, whether the last `k` still are is up to those. */
  lemma EndsInIff(a: seq<string>, b: seq<string>, k: nat)
    requires EndsIn(a, k)
    ensures EndsIn(a + b, k) <==> Tail(b, k)
  {
    if EndsIn(a + b, k) {
      forall i | 0 <= i < |b| && |b| - k <= i
        ensures Canonical(b[i])
      {
        assert b[i] == (a + b)[|a| + i];
      }
    }
  }

  /** The fields from the image to the port, as printed. */
  function Middle(r: DeployRequest): string {
    r.image + ":" + Decimal(r.cpuMillicores) + ":" + Decimal(r.memoryBytes) + ":" + Decimal(r.exposePort)
  }

  lemma NumberSnoc(s: string, n: int64)
    ensures Segments(s + ":" + Decimal(n)) == Segments(s) + [Decimal(n)]
  {
    DecimalHasNoColon(n);
    SegmentsSnoc(s, Decimal(n));
  }

  function Numbers(r: DeployRequest): seq<string> {
    [Decimal(r.cpuMillicores), Decimal(r.memoryBytes), Decimal(r.exposePort)]
  }

  lemma MiddleSegments(r: DeployRequest)
    ensures Segments(Middle(r)) == Segments(r.image) + Numbers(r)
  {
    NumberSnoc(r.image, r.cpuMillicores);
    NumberSnoc(r.image + ":" + Decimal(r.cpuMillicores), r.memoryBytes);
    NumberSnoc(r.image + ":" + Decimal(r.cpuMillicores) + ":" + Decimal(r.memoryBytes), r.exposePort);
  }

  lemma NumbersAreCanonical(r: DeployRequest)
    ensures Canonical(Numbers(r)[0]) && Canonical(Numbers(r)[1]) && Canonical(Numbers(r)[2])
  {
    PrintedIsCanonical(r.cpuMillicores);
    PrintedIsCanonical(r.memoryBytes);
    PrintedIsCanonical(r.exposePort);
  }

  lemma MiddleEnds(r: DeployRequest)
    ensures EndsIn(Segments(Middle(r)), 3)
  {
    MiddleSegments(r);
    NumbersAreCanonical(r);
    ThreeEnd(Segments(r.image), Numbers(r));
  }

  lemma ThreeEnd(a: seq<string>, b: seq<string>)
    requires a != [] && |b| == 3 && Canonical(b[0]) && Canonical(b[1]) && Canonical(b[2])
    ensures EndsIn(a + b, 3)
  {}

  /** The number in the last segment of a text, and what is before it. */
  lemma LastNumber(s: string, k: nat) returns (head: string, n: int64)
    requires k > 0 && EndsIn(Segments(s), k)
    ensures s == head + ":" + Decimal(n) && EndsIn(Segments(head), k - 1)
  {
    head := LastSplit(s).0;
    var last := LastSplit(s).1;
    var a := Segments(head);
    assert Segments(s) == a + [last];
    assert (a + [last])[|a|] == last;
    n := CanonicalIsPrinted(last);
    forall i | 0 <= i < |a| && |a| - (k - 1) <= i
      ensures Canonical(a[i])
    {
      assert a[i] == (a + [last])[i];
    }
  }

  /** A text that ends in three numbers is the middle of some request. */
  lemma MiddleFrom(s: string, r: DeployRequest) returns (q: DeployRequest)
    requires EndsIn(Segments(s), 3)
    ensures Middle(q) == s && q == r.(image := q.image, cpuMillicores := q.cpuMillicores,
                                       memoryBytes := q.memoryBytes, exposePort := q.exposePort)
  {
    var s2, port := LastNumber(s, 3);
    var s1, memory := LastNumber(s2, 2);
    var image, cpu := LastNumber(s1, 1);
    q := r.(image := image, cpuMillicores := cpu, memoryBytes := memory, exposePort := port);
  }

  /** The fields from the image to the requester ID, as printed. */
  function Body(r: DeployRequest): string { Middle(r) + ":" + r.requesterId }

  lemma PayloadMiddle(r: DeployRequest)
    ensures Payload(r) == r.requestId + ":" + (Body(r) + ":" + Decimal(r.timestamp))
  {}

  /** Between requests with colon-free request IDs, payloads agree when all but the middle and the requester agree. */
  lemma SameMiddle(r: DeployRequest, q: DeployRequest)
    requires ':' !in r.requestId && ':' !in q.requestId
    ensures Payload(r) == Payload(q) <==>
            && r.requestId == q.requestId && r.timestamp == q.timestamp
            && Body(r) == Body(q)
  {
    PayloadMiddle(r);
    PayloadMiddle(q);
    if Payload(r) == Payload(q) {
      SplitFirst(r.requestId, Body(r) + ":" + Decimal(r.timestamp), q.requestId, Body(q) + ":" + Decimal(q.timestamp));
      SplitNumber(Body(r), r.timestamp, Body(q), q.timestamp);
    }
  }

  /** `q` has no colon in its IDs, is another request than `r`, and signs the same text. */
  predicate Collides(r: DeployRequest, q: DeployRequest) {
    q != r && ':' !in q.requestId && ':' !in q.requesterId && Payload(q) == Payload(r)
  }

  /** A requester ID that is ambiguous: it has a colon, and up to three segments before its last are numbers. */
  predicate Ambiguous(requesterId: string) {
    var a := Segments(requesterId);
    |a| > 1 && Tail(a[..|a| - 1], 3)
  }

  lemma AmbiguousIff(r: DeployRequest)
    requires ':' in r.requesterId
    ensures Ambiguous(r.requesterId) <==> EndsIn(Segments(Middle(r) + ":" + LastSplit(r.requesterId).0), 3)
  {
    var (head, name) := LastSplit(r.requesterId);
    assert Segments(r.requesterId)[..|Segments(r.requesterId)| - 1] == Segments(head);
    MiddleEnds(r);
    SegmentsJoin(Middle(r), head);
    EndsInIff(Segments(Middle(r)), Segments(head), 3);
  }

  lemma CollisionIsAmbiguous(r: DeployRequest, q: DeployRequest)
    requires ':' !in r.requestId && Collides(r, q)
    ensures Ambiguous(r.requesterId)
  {
    if ':' !in r.requesterId {
      PayloadUnique(r, q);
    } else {
      var (head, name) := LastSplit(r.requesterId);
      SameMiddle(r, q);
      Regroup(Middle(r), head, name);
      SplitLast(Middle(r) + ":" + head, name, Middle(q), q.requesterId);
      MiddleEnds(q);
      AmbiguousIff(r);
    }
  }

  lemma AmbiguousCollides(r: DeployRequest) returns (q: DeployRequest)
    requires ':' !in r.requestId && Ambiguous(r.requesterId)
    ensures Collides(r, q)
  {
    var (head, name) := LastSplit(r.requesterId);
    AmbiguousIff(r);
    q := MiddleFrom(Middle(r) + ":" + head, r.(requesterId := name));
    Regroup(Middle(r), head, name);
    SameMiddle(r, q);
  }

  /**
   The exact condition on the requester ID. For every request with a colon-free request ID, another request with both
   IDs colon-free signs the same text if and only if the requester ID has a colon and the segments before its last
   one, the last three if there are more, are numbers as `%d` prints them.
   */
  lemma CollisionIffAmbiguous(r: DeployRequest)
    requires ':' !in r.requestId
    ensures (exists q :: Collides(r, q)) <==> Ambiguous(r.requesterId)
  {
    if q :| Collides(r, q) {
      CollisionIsAmbiguous(r, q);
    }
    if Ambiguous(r.requesterId) {
      var q := AmbiguousCollides(r);
    }
  }
}
