/** Exactly which requests sign a text that some other request signs too. */
module PayloadWindows {
  import opened AmbiguousPayloads
  import opened HostRouting
  import opened Protocol
  import opened Signing

  lemma {:induction false} SegmentsInjective(s: string, t: string)
    requires Segments(s) == Segments(t)
    ensures s == t
    decreases |s|
  {
    if ':' in s {
      var a, b := Segments(LastSplit(s).0), Segments(LastSplit(t).0);
      assert a == Segments(s)[..|Segments(s)| - 1] == b;
      assert LastSplit(s).1 == Segments(s)[|a|] == LastSplit(t).1;
      SegmentsInjective(LastSplit(s).0, LastSplit(t).0);
    } else {
      assert [s][0] == [t][0];
    }
  }

  predicate ColonFree(a: seq<string>) { forall i :: 0 <= i < |a| ==> ':' !in a[i] }

  lemma {:induction false} SegmentsColonFree(s: string)
    ensures ColonFree(Segments(s))
    decreases |s|
  {
    if ':' in s {
      SegmentsColonFree(LastSplit(s).0);
    }
  }

  /** Segments without colons are those of some text. */
  lemma {:induction false} TextOf(a: seq<string>) returns (s: string)
    requires a != [] && ColonFree(a)
    ensures Segments(s) == a
    decreases |a|
  {
    if |a| == 1 {
      s := a[0];
    } else {
      var head := TextOf(a[..|a| - 1]);
      s := head + ":" + a[|a| - 1];
      SegmentsSnoc(head, a[|a| - 1]);
    }
  }

  /** The segments of what is signed between request ID and timestamp. */
  lemma BodySegments(r: DeployRequest)
    ensures Segments(Body(r)) == Segments(r.image) + Numbers(r) + Segments(r.requesterId)
  {
    MiddleSegments(r);
    SegmentsJoin(Middle(r), r.requesterId);
  }

  /** What is printed and in which order: the seven fields, with a colon between each two. */
  lemma PayloadSegments(r: DeployRequest)
    ensures Segments(Payload(r)) ==
            Segments(r.requestId) + Segments(r.image)
            + [Decimal(r.cpuMillicores), Decimal(r.memoryBytes), Decimal(r.exposePort)]
            + Segments(r.requesterId) + [Decimal(r.timestamp)]
  {
    PayloadMiddle(r);
    BodySegments(r);
    NumberSnoc(Body(r), r.timestamp);
    SegmentsJoin(r.requestId, Body(r) + ":" + Decimal(r.timestamp));
    FiveParts(Segments(r.requestId), Segments(r.image), Numbers(r), Segments(r.requesterId), [Decimal(r.timestamp)]);
  }

  lemma FiveParts(a: seq<string>, b: seq<string>, c: seq<string>, d: seq<string>, e: seq<string>)
    ensures a + (b + c + d + e) == a + b + c + d + e
  {}

  /** At `i` there are three printed numbers, with something before and something after them. */
  predicate Window(a: seq<string>, i: nat) {
    1 <= i && i + 3 < |a| && Canonical(a[i]) && Canonical(a[i + 1]) && Canonical(a[i + 2])
  }

  lemma ThreeAreWindow(a: seq<string>, b: seq<string>, c: seq<string>)
    requires a != [] && c != [] && |b| == 3 && Canonical(b[0]) && Canonical(b[1]) && Canonical(b[2])
    ensures Window(a + b + c, |a|)
  {}

  lemma Slices(a: seq<string>, b: seq<string>, c: seq<string>)
    ensures var s := a + b + c; s[..|a|] == a && s[|a|..|a| + |b|] == b && s[|a| + |b|..] == c
  {}

  /** A request's own numbers are a window. */
  lemma OwnWindow(r: DeployRequest)
    ensures Window(Segments(Body(r)), |Segments(r.image)|)
    ensures var a, i := Segments(Body(r)), |Segments(r.image)|;
            a[..i] == Segments(r.image) && a[i..i + 3] == Numbers(r) && a[i + 3..] == Segments(r.requesterId)
  {
    BodySegments(r);
    NumbersAreCanonical(r);
    ThreeAreWindow(Segments(r.image), Numbers(r), Segments(r.requesterId));
    Slices(Segments(r.image), Numbers(r), Segments(r.requesterId));
  }

  /** The window tells the request. */
  lemma SameWindow(r: DeployRequest, q: DeployRequest)
    requires Body(r) == Body(q) && |Segments(r.image)| == |Segments(q.image)|
    ensures r.image == q.image && r.requesterId == q.requesterId
    ensures r.cpuMillicores == q.cpuMillicores && r.memoryBytes == q.memoryBytes && r.exposePort == q.exposePort
  {
    OwnWindow(r);
    OwnWindow(q);
    SegmentsInjective(r.image, q.image);
    SegmentsInjective(r.requesterId, q.requesterId);
    assert Numbers(r) == Numbers(q);
    assert Numbers(r)[0] == Numbers(q)[0] && Numbers(r)[1] == Numbers(q)[1] && Numbers(r)[2] == Numbers(q)[2];
    DecimalInjective(r.cpuMillicores, q.cpuMillicores);
    DecimalInjective(r.memoryBytes, q.memoryBytes);
    DecimalInjective(r.exposePort, q.exposePort);
  }

  /** Every window is that of some request. */
  lemma FromWindow(r: DeployRequest, i: nat) returns (q: DeployRequest)
    requires Window(Segments(Body(r)), i)
    ensures Body(q) == Body(r) && |Segments(q.image)| == i
    ensures q.requestId == r.requestId && q.timestamp == r.timestamp
  {
    var a := Segments(Body(r));
    Cuts(a, i);
    q := FromParts(r, a[..i], a[i], a[i + 1], a[i + 2], a[i + 3..]);
    SegmentsInjective(Body(q), Body(r));
  }

  lemma Cuts(a: seq<string>, i: nat)
    requires i + 3 <= |a|
    ensures a == a[..i] + [a[i], a[i + 1], a[i + 2]] + a[i + 3..]
  {}

  lemma FromParts(r: DeployRequest, before: seq<string>, x: string, y: string, z: string, rest: seq<string>)
    returns (q: DeployRequest)
    requires before != [] && rest != [] && Canonical(x) && Canonical(y) && Canonical(z)
    requires Segments(Body(r)) == before + [x, y, z] + rest
    ensures Segments(Body(q)) == before + [x, y, z] + rest && Segments(q.image) == before
    ensures q.requestId == r.requestId && q.timestamp == r.timestamp
  {
    PartsColonFree(Body(r), before, [x, y, z], rest);
    var image := TextOf(before);
    var requesterId := TextOf(rest);
    var cpu := CanonicalIsPrinted(x);
    var memory := CanonicalIsPrinted(y);
    var port := CanonicalIsPrinted(z);
    q := r.(image := image, cpuMillicores := cpu, memoryBytes := memory, exposePort := port,
            requesterId := requesterId);
    BodySegments(q);
  }

  lemma PartsColonFree(s: string, a: seq<string>, b: seq<string>, c: seq<string>)
    requires Segments(s) == a + b + c
    ensures ColonFree(a) && ColonFree(c)
  {
    SegmentsColonFree(s);
    assert forall i :: 0 <= i < |a| ==> a[i] == (a + b + c)[i];
    assert forall i :: 0 <= i < |c| ==> c[i] == (a + b + c)[|a + b| + i];
  }

  /** `q` is another request and signs the same text. */
  predicate SameText(r: DeployRequest, q: DeployRequest) { q != r && Payload(q) == Payload(r) }

  predicate OtherWindow(r: DeployRequest, i: nat) { i != |Segments(r.image)| && Window(Segments(Body(r)), i) }

  /**
   The exact condition against all requests with colon-free request IDs, whatever their requester ID. For a request with
   a colon-free request ID, another such request signs the same text if and only if, among the segments from the image
   to the requester ID, three consecutive ones other than the request's own are printed numbers, with at least one
   segment before them and one after.
   */
  lemma SameTextIffOtherWindow(r: DeployRequest)
    requires ':' !in r.requestId
    ensures (exists q :: SameText(r, q) && ':' !in q.requestId) <==> exists i :: OtherWindow(r, i)
  {
    if q :| SameText(r, q) && ':' !in q.requestId {
      SameMiddle(r, q);
      OwnWindow(q);
      if |Segments(q.image)| == |Segments(r.image)| {
        SameWindow(r, q);
      }
      assert OtherWindow(r, |Segments(q.image)|);
    }
    if i: nat :| OtherWindow(r, i) {
      var q := FromWindow(r, i);
      SameMiddle(r, q);
      assert SameText(r, q);
    }
  }

  lemma ColonInImageCollides(r: DeployRequest) returns (q: DeployRequest)
    requires ':' in r.image
    ensures SameText(r, q)
  {
    var i := Index(r.image, ':');
    q := r.(requestId := r.requestId + ":" + r.image[..i], image := r.image[i + 1..]);
    assert r.image == r.image[..i] + ":" + r.image[i + 1..];
    assert q.requestId + ":" + q.image == r.requestId + ":" + r.image;
    assert |q.requestId| > |r.requestId|;
  }

  lemma NoColonCollision(r: DeployRequest, q: DeployRequest) returns (i: nat)
    requires ':' !in r.requestId && ':' !in r.image && SameText(r, q)
    ensures OtherWindow(r, i)
  {
    var p := q;
    if ':' in q.requestId {
      p := ColonInRequestIdCollides(q);
    }
    assert SameText(r, p) && ':' !in p.requestId;
    SameTextIffOtherWindow(r);
    i :| OtherWindow(r, i);
  }

  /**
   And against all requests: a request is the only one that signs its text if and only if its request ID and image have
   no colon and there is no such other window.
   */
  lemma SameTextIff(r: DeployRequest)
    ensures (exists q :: SameText(r, q)) <==> ':' in r.requestId || ':' in r.image || exists i :: OtherWindow(r, i)
  {
    if ':' in r.requestId {
      var q := ColonInRequestIdCollides(r);
      assert SameText(r, q);
    } else if ':' in r.image {
      var q := ColonInImageCollides(r);
    } else {
      if q :| SameText(r, q) {
        var i := NoColonCollision(r, q);
      }
      SameTextIffOtherWindow(r);
    }
  }
}
