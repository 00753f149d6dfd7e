/** The text that cmd/peerctl/deploy.go signs, and what can be told from it. */
module Signing {
  import opened MachineInt
  import opened Protocol
  import opened HostRouting

  function Digit(d: int): char
    requires 0 <= d < 10
  {
    ['0', '1', '2', '3', '4', '5', '6', '7', '8', '9'][d]
  }

  function Digits(n: nat): (s: string)
    ensures s != [] && (|s| == 1 <==> n < 10)
  {
    if n < 10 then [Digit(n)] else Digits(n / 10) + [Digit(n % 10)]
  }

  /** `%d`. */
  function Decimal(n: int): string {
    if n < 0 then "-" + Digits(-n) else Digits(n)
  }

  lemma {:induction false} DigitsInjective(m: nat, n: nat)
    requires Digits(m) == Digits(n)
    ensures m == n
    decreases m
  {
    var s, t := Digits(m), Digits(n);
    assert s[|s| - 1] == Digit(m % 10) && t[|t| - 1] == Digit(n % 10);
    if m >= 10 && n >= 10 {
      assert s[..|s| - 1] == Digits(m / 10) && t[..|t| - 1] == Digits(n / 10);
      DigitsInjective(m / 10, n / 10);
    }
  }

  lemma {:induction false} DigitsAreDigits(n: nat)
    ensures forall c :: c in Digits(n) ==> '0' <= c <= '9'
  {
    if n >= 10 {
      DigitsAreDigits(n / 10);
    }
  }

  lemma SignShows(n: int)
    ensures Decimal(n) != [] && (Decimal(n)[0] == '-' <==> n < 0)
  {
    if n >= 0 {
      DigitsAreDigits(n);
      assert Digits(n)[0] in Digits(n);
    }
  }

  lemma DecimalInjective(m: int, n: int)
    requires Decimal(m) == Decimal(n)
    ensures m == n
  {
    SignShows(m);
    SignShows(n);
    if m < 0 {
      assert Decimal(m)[1..] == Digits(-m) && Decimal(n)[1..] == Digits(-n);
      DigitsInjective(-m, -n);
    } else {
      DigitsInjective(m, n);
    }
  }

  lemma DecimalHasNoColon(n: int)
    ensures ':' !in Decimal(n)
  {
    DigitsAreDigits(if n < 0 then -n else n);
  }

  /** The payload of `signRequest`. */
  function Payload(r: DeployRequest): string {
    r.requestId + ":" + r.image + ":" + Decimal(r.cpuMillicores) + ":" + Decimal(r.memoryBytes) + ":"
    + Decimal(r.exposePort) + ":" + r.requesterId + ":" + Decimal(r.timestamp)
  }

  /** The first colon splits a text in one way only. */
  lemma SplitFirst(a: string, x: string, b: string, y: string)
    requires ':' !in a && ':' !in b && a + ":" + x == b + ":" + y
    ensures a == b && x == y
  {
    var s := a + ":" + x;
    assert s[..|a|] == a && s[..|b|] == b && s[|a|] == ':' == s[|b|];
    IndexUnique(s, ':', |a|);
    IndexUnique(s, ':', |b|);
    assert s[|a| + 1..] == x && (b + ":" + y)[|b| + 1..] == y;
  }

  lemma LaterColonIsInTail(x: string, a: string, y: string, b: string)
    requires x + ":" + a == y + ":" + b && |x| < |y|
    ensures ':' in a
  {
    assert (y + ":" + b)[|y|] == ':';
    assert (x + ":" + a)[|x| + 1..] == a;
    assert a[|y| - |x| - 1] == ':';
  }

  /** So does the last. */
  lemma SplitLast(x: string, a: string, y: string, b: string)
    requires ':' !in a && ':' !in b && x + ":" + a == y + ":" + b
    ensures x == y && a == b
  {
    if |x| < |y| {
      LaterColonIsInTail(x, a, y, b);
    }
    if |y| < |x| {
      LaterColonIsInTail(y, b, x, a);
    }
    assert (x + ":" + a)[..|x|] == x && (y + ":" + b)[..|y|] == y;
    assert (x + ":" + a)[|x| + 1..] == a && (y + ":" + b)[|y| + 1..] == b;
  }

  lemma SplitNumber(x: string, m: int, y: string, n: int)
    requires x + ":" + Decimal(m) == y + ":" + Decimal(n)
    ensures x == y && m == n
  {
    DecimalHasNoColon(m);
    DecimalHasNoColon(n);
    SplitLast(x, Decimal(m), y, Decimal(n));
    DecimalInjective(m, n);
  }

  /**
   The payload says what was signed: between requests whose request ID and requester ID have no colon, however
   many the image has, two payloads are equal exactly when the requests are equal in all seven fields printed.
   */
  lemma PayloadUnique(r: DeployRequest, q: DeployRequest)
    requires ':' !in r.requestId && ':' !in r.requesterId && ':' !in q.requestId && ':' !in q.requesterId
    ensures Payload(r) == Payload(q) <==> r == q
  {
    if Payload(r) == Payload(q) {
      var r1, q1 := r.requestId + ":" + r.image, q.requestId + ":" + q.image;
      var r2, q2 := r1 + ":" + Decimal(r.cpuMillicores), q1 + ":" + Decimal(q.cpuMillicores);
      var r3, q3 := r2 + ":" + Decimal(r.memoryBytes), q2 + ":" + Decimal(q.memoryBytes);
      var r4, q4 := r3 + ":" + Decimal(r.exposePort), q3 + ":" + Decimal(q.exposePort);
      var r5, q5 := r4 + ":" + r.requesterId, q4 + ":" + q.requesterId;
      SplitNumber(r5, r.timestamp, q5, q.timestamp);
      SplitLast(r4, r.requesterId, q4, q.requesterId);
      SplitNumber(r3, r.exposePort, q3, q.exposePort);
      SplitNumber(r2, r.memoryBytes, q2, q.memoryBytes);
      SplitNumber(r1, r.cpuMillicores, q1, q.cpuMillicores);
      SplitFirst(r.requestId, r.image, q.requestId, q.image);
    }
  }

  /**
   A colon in the request ID always makes the payload ambiguous: another request, with no colon there, signs the
   same text.
   */
  lemma ColonInRequestIdCollides(r: DeployRequest) returns (q: DeployRequest)
    requires ':' in r.requestId
    ensures Payload(q) == Payload(r) && q != r && ':' !in q.requestId && q.requesterId == r.requesterId
    ensures ':' in q.image
  {
    var i := Index(r.requestId, ':');
    q := r.(requestId := r.requestId[..i], image := r.requestId[i + 1..] + ":" + r.image);
    assert r.requestId == r.requestId[..i] + ":" + r.requestId[i + 1..];
    assert q.requestId + ":" + q.image == r.requestId + ":" + r.image;
    assert q.image[|r.requestId[i + 1..]|] == ':';
  }

  /** So does a requester ID that starts with a number and a colon. */
  lemma NumberInRequesterIdCollides(r: DeployRequest, n: int64, name: string) returns (q: DeployRequest)
    requires r.requesterId == Decimal(n) + ":" + name
    ensures Payload(q) == Payload(r) && q != r && q.requestId == r.requestId && q.requesterId == name
  {
    q := r.(image := r.image + ":" + Decimal(r.cpuMillicores), cpuMillicores := r.memoryBytes,
            memoryBytes := r.exposePort, exposePort := n, requesterId := name);
    var head := r.requestId + ":" + r.image + ":" + Decimal(r.cpuMillicores);
    assert q.requestId + ":" + q.image == head;
    assert |r.requesterId| > |name|;
    assert Decimal(r.exposePort) + ":" + r.requesterId == Decimal(r.exposePort) + ":" + Decimal(n) + ":" + name;
    assert Payload(r) == head + ":" + Decimal(r.memoryBytes) + ":" + Decimal(r.exposePort) + ":"
                         + Decimal(n) + ":" + name + ":" + Decimal(r.timestamp);
  }
}
