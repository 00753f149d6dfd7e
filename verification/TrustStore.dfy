/** internal/p2p/trust.go: the list of trusted peers in memory and in its file. */
module TrustStore {
  import opened Machines

  /** `addedAt` is an instant; the JSON text of the file is taken to hold a record exactly. */
  datatype TrustedPeer = TrustedPeer(id: string, name: string, addedAt: int, addresses: seq<string>)

  datatype File = Missing | Unreadable | Holds(peers: seq<TrustedPeer>)

  function Ids(ps: seq<TrustedPeer>): set<string> { set p | p in ps :: p.id }

  lemma IdsSnoc(ps: seq<TrustedPeer>, p: TrustedPeer)
    ensures Ids(ps + [p]) == Ids(ps) + {p.id}
  {
    assert forall q :: q in ps + [p] <==> q in ps || q == p;
  }

  /** What `Load` makes of the list in the file: later entries replace earlier ones. */
  function FromList(ps: seq<TrustedPeer>): map<string, TrustedPeer> {
    if ps == [] then map[]
    else
      var p := ps[|ps| - 1];
      FromList(ps[..|ps| - 1])[p.id := p]
  }

  /** `ps` is the map's records, each once, in some order. */
  predicate Lists(ps: seq<TrustedPeer>, peers: map<string, TrustedPeer>) {
    |ps| == |peers| && Ids(ps) == peers.Keys && forall p :: p in ps ==> p.id in peers && peers[p.id] == p
  }

  predicate Filed(peers: map<string, TrustedPeer>) { forall id :: id in peers ==> peers[id].id == id }

  lemma {:induction false} FromListEntries(ps: seq<TrustedPeer>)
    ensures Filed(FromList(ps)) && FromList(ps).Keys == Ids(ps)
    ensures forall id :: id in FromList(ps) ==> FromList(ps)[id] in ps
  {
    if ps != [] {
      var init, p := ps[..|ps| - 1], ps[|ps| - 1];
      FromListEntries(init);
      assert ps == init + [p];
      assert Ids(ps) == Ids(init) + {p.id};
    }
  }

  /** For each ID the last entry of the list is the one loaded. */
  lemma {:induction false} LastEntryIsLoaded(ps: seq<TrustedPeer>, i: nat)
    requires i < |ps| && forall j :: i < j < |ps| ==> ps[j].id != ps[i].id
    ensures ps[i].id in FromList(ps) && FromList(ps)[ps[i].id] == ps[i]
    decreases |ps|
  {
    var init := ps[..|ps| - 1];
    if i < |init| {
      assert init[i] == ps[i] && forall j :: i < j < |init| ==> init[j] == ps[j];
      LastEntryIsLoaded(init, i);
    }
  }

  /** Reading back what was written gives the same map, whatever order it was written in. */
  lemma ListRoundTrip(ps: seq<TrustedPeer>, peers: map<string, TrustedPeer>)
    requires Lists(ps, peers)
    ensures FromList(ps) == peers
  {
    FromListEntries(ps);
  }

  function Loaded(peers: map<string, TrustedPeer>, file: File): map<string, TrustedPeer> {
    if file.Holds? then FromList(file.peers) else peers
  }

  function Added(peers: map<string, TrustedPeer>, id: string, name: string, addresses: seq<string>, now: int)
    : map<string, TrustedPeer>
  {
    if id in peers then peers[id := peers[id].(name := name, addresses := addresses)]
    else peers[id := TrustedPeer(id, name, now, addresses)]
  }

  class TrustManager {
    var peers: map<string, TrustedPeer>
    var file: File          // the file at the manager's path

    constructor (file: File)
      ensures peers == map[] && this.file == file
    {
      peers := map[];
      this.file := file;
    }

    /** A missing file leaves the list as it is; one that cannot be read or parsed is an error and does the same. */
    method Load() returns (ok: bool)
      modifies `peers
      ensures ok == !file.Unreadable? && peers == Loaded(old(peers), file)
      ensures !file.Holds? ==> peers == old(peers)
    {
      match file
      case Missing => return true;
      case Unreadable => return false;
      case Holds(ps) =>
        peers := map[];
        var i := 0;
        while i < |ps|
          invariant 0 <= i <= |ps| && peers == FromList(ps[..i])
        {
          assert ps[..i + 1][..i] == ps[..i];
          peers := peers[ps[i].id := ps[i]];
          i := i + 1;
        }
        assert ps[..|ps|] == ps;
        return true;
    }

    /** `writeOk` is whether directory and file could be written; if not, `left` is what is then at the path. */
    method SaveUnlocked(writeOk: bool, left: File) returns (ok: bool)
      requires Filed(peers)
      modifies `file
      ensures ok == writeOk
      ensures if writeOk then file.Holds? && Lists(file.peers, peers) else file == left
    {
      var ps := [];
      var rest := peers.Keys;
      while rest != {}
        invariant rest <= peers.Keys && |ps| + |rest| == |peers| && Ids(ps) == peers.Keys - rest
        invariant forall p :: p in ps ==> p.id in peers && peers[p.id] == p
      {
        var id :| id in rest;
        IdsSnoc(ps, peers[id]);
        ps := ps + [peers[id]];
        rest := rest - {id};
      }
      file := if writeOk then Holds(ps) else left;
      return writeOk;
    }

    method Add(id: string, name: string, addresses: seq<string>, now: int, writeOk: bool, left: File) returns (ok: bool)
      requires Filed(peers)
      modifies this
      ensures Filed(peers) && peers == Added(old(peers), id, name, addresses, now) && ok == writeOk
      ensures id in peers && peers[id].name == name && peers[id].addresses == addresses
      ensures peers[id].addedAt == if id in old(peers) then old(peers)[id].addedAt else now
      ensures peers - {id} == old(peers) - {id}
      ensures if writeOk then file.Holds? && Lists(file.peers, peers) else file == left
    {
      if id in peers {
        peers := peers[id := peers[id].(name := name, addresses := addresses)];
      } else {
        peers := peers[id := TrustedPeer(id, name, now, addresses)];
      }
      ok := SaveUnlocked(writeOk, left);
    }

    method Remove(id: string, writeOk: bool, left: File) returns (ok: bool)
      requires Filed(peers)
      modifies this
      ensures Filed(peers) && peers == old(peers) - {id} && ok == (id in old(peers) && writeOk)
      ensures if id !in old(peers) then file == old(file)
              else if writeOk then file.Holds? && Lists(file.peers, peers) else file == left
    {
      if id !in peers {
        assert peers - {id} == peers;
        return false;
      }
      peers := peers - {id};
      ok := SaveUnlocked(writeOk, left);
    }

    method IsTrusted(id: string) returns (trusted: bool)
      ensures trusted == (id in peers)
    {
      trusted := id in peers;
    }
  }

  // ---------- any run of calls ----------

  /** How a write ended: with the records in some order, or with something else at the path. */
  datatype Write = Wrote(ps: seq<TrustedPeer>) | WriteFailed(left: File)

  datatype Call =
    | DoAdd(id: string, name: string, addresses: seq<string>, now: int, write: Write)
    | DoRemove(id: string, write: Write)

  /** `lastWrote` is history: whether the last write, if there has been one, succeeded. */
  datatype Store = Store(peers: map<string, TrustedPeer>, file: File, lastWrote: bool)

  function PeersAfter(s: Store, c: Call): map<string, TrustedPeer> {
    match c
    case DoAdd(id, name, addresses, now, _) => Added(s.peers, id, name, addresses, now)
    case DoRemove(id, _) => s.peers - {id}
  }

  /** A write puts down the records of the updated map in some order. */
  predicate MayCall(s: Store, c: Call) { c.write.Wrote? ==> Lists(c.write.ps, PeersAfter(s, c)) }

  function Perform(s: Store, c: Call): Store {
    if c.DoRemove? && c.id !in s.peers then s
    else
      Store(PeersAfter(s, c), if c.write.Wrote? then Holds(c.write.ps) else c.write.left, c.write.Wrote?)
  }

  ghost function Keeping(): Machine<Store, Call> {
    Machine((s, c) => MayCall(s, c), (s, c) => Perform(s, c))
  }

  /** A manager that has just loaded `file`. */
  function Fresh(file: File): Store { Store(Loaded(map[], file), file, false) }

  ghost predicate Inv(s: Store) {
    Filed(s.peers) && (s.lastWrote ==> s.file.Holds? && Lists(s.file.peers, s.peers))
  }

  lemma RunKeeps(file: File, cs: seq<Call>, t: Store)
    requires Runs(Keeping(), Fresh(file), cs, t)
    ensures Inv(t)
  {
    if file.Holds? {
      FromListEntries(file.peers);
    }
    Induction(Keeping(), Inv, Fresh(file), cs, t);
  }

  /**
   File against memory. A manager loads whatever file there is, then adds and removes peers; some writes may fail
   and leave anything behind. If the last write succeeded, a fresh manager that loads the file has the very same
   peers. Either way every record is filed under its own ID.
   */
  lemma FileAgreesWithMemory(file: File, cs: seq<Call>, t: Store)
    requires file != Unreadable && Runs(Keeping(), Fresh(file), cs, t)
    ensures Filed(t.peers)
    ensures t.lastWrote ==> Loaded(map[], t.file) == t.peers
  {
    RunKeeps(file, cs, t);
    if t.lastWrote {
      ListRoundTrip(t.file.peers, t.peers);
    }
  }

  /** When every write succeeds, either none was made and nothing has changed, or the last one succeeded. */
  lemma {:induction false} WritesSucceed(s: Store, cs: seq<Call>, t: Store)
    requires Runs(Keeping(), s, cs, t) && forall c :: c in cs ==> c.write.Wrote?
    ensures t == s || t.lastWrote
    decreases |cs|
  {
    if cs != [] {
      assert cs == [cs[0]] + cs[1..];
      WritesSucceed(Perform(s, cs[0]), cs[1..], t);
    }
  }

  /**
   So then the file agrees with memory at every moment, whatever was in it at first and whatever calls are made.
   */
  lemma SuccessfulWritesAgree(file: File, cs: seq<Call>, t: Store)
    requires file != Unreadable && Runs(Keeping(), Fresh(file), cs, t)
    requires forall c :: c in cs ==> c.write.Wrote?
    ensures Loaded(map[], t.file) == t.peers
  {
    WritesSucceed(Fresh(file), cs, t);
    FileAgreesWithMemory(file, cs, t);
  }

  predicate Adds(c: Call, id: string) { c.DoAdd? && c.id == id }

  predicate Removes(c: Call, id: string) { c.DoRemove? && c.id == id }

  predicate RemovedIn(cs: seq<Call>, id: string) { exists i :: 0 <= i < |cs| && Removes(cs[i], id) }

  /** Call `i` adds `id`, and no later one removes it. */
  predicate AddedAt(cs: seq<Call>, id: string, i: nat) {
    i < |cs| && Adds(cs[i], id) && forall j :: i < j < |cs| ==> !Removes(cs[j], id)
  }

  ghost predicate AddedForGood(cs: seq<Call>, id: string) { exists i :: AddedAt(cs, id, i) }

  /**
   Who is trusted. After any calls a peer is trusted exactly if it was added by one of them and not removed since, or
   was trusted before and not removed, whether or not the file could be written.
   */
  lemma {:induction false} TrustedIff(s: Store, cs: seq<Call>, t: Store, id: string)
    requires Runs(Keeping(), s, cs, t)
    ensures id in t.peers <==> AddedForGood(cs, id) || (id in s.peers && !RemovedIn(cs, id))
    decreases |cs|
  {
    if cs != [] {
      var c, rest := cs[0], cs[1..];
      assert cs == [c] + rest;
      TrustedIff(Perform(s, c), rest, t, id);
      FirstRemoved(c, rest, id);
      FirstAdded(c, rest, id);
      CallMeans(s, c, id);
    }
  }

  /** So, for a manager that has loaded its file: those in the file or added, and not removed since. */
  lemma TrustedAfterLoad(file: File, cs: seq<Call>, t: Store, id: string)
    requires Runs(Keeping(), Fresh(file), cs, t)
    ensures id in t.peers <==>
            AddedForGood(cs, id) || (file.Holds? && id in Ids(file.peers) && !RemovedIn(cs, id))
  {
    TrustedIff(Fresh(file), cs, t, id);
    if file.Holds? {
      FromListEntries(file.peers);
    }
  }

  /** What one call does to the trust in `id`. */
  lemma CallMeans(s: Store, c: Call, id: string)
    ensures id in Perform(s, c).peers <==>
            if c.id == id then c.DoAdd? else id in s.peers
  {}

  lemma FirstRemoved(c: Call, rest: seq<Call>, id: string)
    ensures RemovedIn([c] + rest, id) <==> RemovedIn(rest, id) || Removes(c, id)
  {
    var cs := [c] + rest;
    if i :| 0 <= i < |rest| && Removes(rest[i], id) {
      assert Removes(cs[i + 1], id);
    }
    if Removes(c, id) {
      assert Removes(cs[0], id);
    }
    if i :| 0 <= i < |cs| && Removes(cs[i], id) {
      assert i > 0 ==> cs[i] == rest[i - 1];
    }
  }

  lemma FirstAdded(c: Call, rest: seq<Call>, id: string)
    ensures AddedForGood([c] + rest, id) <==>
            AddedForGood(rest, id) || (Adds(c, id) && !RemovedIn(rest, id))
  {
    var cs := [c] + rest;
    if i: nat :| AddedAt(rest, id, i) {
      assert forall j :: i + 1 < j < |cs| ==> cs[j] == rest[j - 1];
      assert AddedAt(cs, id, i + 1);
    }
    if Adds(c, id) && !RemovedIn(rest, id) {
      assert forall j :: 0 < j < |cs| ==> cs[j] == rest[j - 1];
      assert AddedAt(cs, id, 0);
    }
    if i: nat :| AddedAt(cs, id, i) {
      LaterOfAdded(c, rest, id, i);
    }
  }

  lemma LaterOfAdded(c: Call, rest: seq<Call>, id: string, i: nat)
    requires AddedAt([c] + rest, id, i)
    ensures if i == 0 then Adds(c, id) && !RemovedIn(rest, id) else AddedAt(rest, id, i - 1)
  {
    var cs := [c] + rest;
    assert forall j :: 0 <= j < |rest| ==> rest[j] == cs[j + 1];
  }

  /** The peer that is added shows the name and addresses given last, and the time at which it was new. */
  lemma AddMeans(s: Store, c: Call)
    requires c.DoAdd?
    ensures var peers := Perform(s, c).peers;
            && c.id in peers && peers[c.id].name == c.name && peers[c.id].addresses == c.addresses
            && peers[c.id].addedAt == (if c.id in s.peers then s.peers[c.id].addedAt else c.now)
            && peers - {c.id} == s.peers - {c.id}
  {}

  /** However often a peer is added again, it keeps the time at which it was first added, until it is removed. */
  lemma {:induction false} AddedAtIsKept(s: Store, cs: seq<Call>, t: Store, id: string)
    requires Runs(Keeping(), s, cs, t) && id in s.peers
    requires forall c :: c in cs ==> !(c.DoRemove? && c.id == id)
    ensures id in t.peers && t.peers[id].addedAt == s.peers[id].addedAt
    decreases |cs|
  {
    if cs != [] {
      assert cs[0] in cs && cs == [cs[0]] + cs[1..];
      AddedAtIsKept(Perform(s, cs[0]), cs[1..], t, id);
    }
  }
}
