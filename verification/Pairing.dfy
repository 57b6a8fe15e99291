/** The pairing handshake and the peer list it writes (src/pair.rs). The two machines share a phrase,
    so what they read under one phase was written by the other for that phase; messages may be lost,
    repeated or late, and either side may time out between any two steps. */
module Pairing {
  import opened Types
  import opened Saves

  // ---- The peer list

  predicate IsAlphanumeric(c: char) {
    '0' <= c <= '9' || 'A' <= c <= 'Z' || 'a' <= c <= 'z'
  }

  predicate ValidName(name: string) {
    && name != "" && |name| <= 63 && IsAlphanumeric(name[0])
    && forall c :: c in name ==> IsAlphanumeric(c) || c == '-' || c == '_'
  }

  /** What pairing reads and writes of a store; `weak` are the public keys no machine may use. */
  datatype Book = Book(name: string, key: PublicKey, peers: seq<Peer>, weak: set<PublicKey>)

  predicate Usable(b: Book, p: Peer) {
    ValidName(p.name) && p.key !in b.weak && p.name != b.name && p.key != b.key
  }

  /** Names and keys of peers determine each other, and neither is this machine's. */
  ghost predicate OneToOne(b: Book) {
    && ValidName(b.name)
    && (forall i :: 0 <= i < |b.peers| ==> Usable(b, b.peers[i]))
    && (forall i, j :: 0 <= i < j < |b.peers| ==>
          b.peers[i].name != b.peers[j].name && b.peers[i].key != b.peers[j].key)
  }

  /** `validate_store`. */
  method ValidateStore(b: Book) returns (ok: bool)
    ensures ok <==> OneToOne(b)
  {
    if !ValidName(b.name) {
      return false;
    }
    var names: set<string>, keys: set<PublicKey> := {}, {};
    for i := 0 to |b.peers|
      invariant forall m :: 0 <= m < i ==> Usable(b, b.peers[m])
      invariant forall m, n :: 0 <= m < n < i ==> b.peers[m].name != b.peers[n].name && b.peers[m].key != b.peers[n].key
      invariant forall x :: x in names <==> exists m :: 0 <= m < i && b.peers[m].name == x
      invariant forall x :: x in keys <==> exists m :: 0 <= m < i && b.peers[m].key == x
    {
      var p := b.peers[i];
      if !Usable(b, p) || p.name in names || p.key in keys {
        return false;
      }
      names, keys := names + {p.name}, keys + {p.key};
    }
    return true;
  }

  /** The first peer with this name or this key; the length stands for "none". */
  function Clash(peers: seq<Peer>, p: Peer): (i: nat)
    ensures i <= |peers|
    ensures i < |peers| ==> peers[i].name == p.name || peers[i].key == p.key
    ensures forall m :: 0 <= m < i ==> peers[m].name != p.name && peers[m].key != p.key
  {
    if peers == [] then 0
    else if peers[0].name == p.name || peers[0].key == p.key then 0
    else 1 + Clash(peers[1..], p)
  }

  ghost function UpdatePeer(b: Book, p: Peer): Result<Book> {
    var i := Clash(b.peers, p);
    if i < |b.peers| && (b.peers[i].name != p.name || b.peers[i].key != p.key) then Err(Usage) else
    var after := b.(peers := if i < |b.peers| then b.peers[i := b.peers[i].(addr := p.addr)] else b.peers + [p]);
    if OneToOne(after) then Ok(after) else Err(Usage)
  }

  lemma NewPeer(b: Book, p: Peer)
    requires OneToOne(b) && Clash(b.peers, p) == |b.peers|
    ensures OneToOne(b.(peers := b.peers + [p])) <==> Usable(b, p)
  {
    var after := b.(peers := b.peers + [p]);
    assert after.peers[|b.peers|] == p;
    if Usable(b, p) {
      forall i | 0 <= i < |after.peers| ensures Usable(after, after.peers[i]) {
        assert i < |b.peers| ==> Usable(b, b.peers[i]);
      }
    } else {
      assert !Usable(after, after.peers[|b.peers|]);
    }
  }

  lemma KnownPeer(b: Book, p: Peer, i: nat)
    requires OneToOne(b) && i < |b.peers| && b.peers[i].name == p.name && b.peers[i].key == p.key
    ensures OneToOne(b.(peers := b.peers[i := b.peers[i].(addr := p.addr)])) && Usable(b, p)
  {
    assert Usable(b, b.peers[i]);
  }

  lemma ClashIff(b: Book, p: Peer)
    requires OneToOne(b)
    ensures var i := Clash(b.peers, p);
      (i < |b.peers| ==> b.peers[i].name == p.name && b.peers[i].key == p.key)
      <==> forall m :: 0 <= m < |b.peers| ==> (b.peers[m].name == p.name <==> b.peers[m].key == p.key)
  {
    var i := Clash(b.peers, p);
    if i < |b.peers| && b.peers[i].name == p.name && b.peers[i].key == p.key {
      forall m | 0 <= m < |b.peers| ensures b.peers[m].name == p.name <==> b.peers[m].key == p.key {
        assert m < i || m == i || m > i;
      }
    }
  }

  /** A one-to-one list takes a peer exactly when it is usable and its name and key are both new or
      already belong together. */
  lemma UpdatePeerIff(b: Book, p: Peer)
    requires OneToOne(b)
    ensures UpdatePeer(b, p).Ok? <==>
      Usable(b, p) && forall i :: 0 <= i < |b.peers| ==> (b.peers[i].name == p.name <==> b.peers[i].key == p.key)
  {
    var i := Clash(b.peers, p);
    ClashIff(b, p);
    if i == |b.peers| {
      NewPeer(b, p);
    } else if b.peers[i].name == p.name && b.peers[i].key == p.key {
      KnownPeer(b, p, i);
    }
  }

  /** Then the peer is in the list, no other is added, and no other name is lost. */
  lemma UpdatePeerKeeps(b: Book, p: Peer, t: Book)
    requires OneToOne(b) && UpdatePeer(b, p) == Ok(t)
    ensures OneToOne(t) && t == b.(peers := t.peers) && p in t.peers
    ensures forall q :: q in t.peers && q != p ==> q in b.peers
    ensures forall q :: q in b.peers && q.name != p.name ==> q in t.peers
  {
    var i := Clash(b.peers, p);
    if i < |b.peers| {
      assert t.peers[i] == p;
      forall q | q in b.peers && q.name != p.name ensures q in t.peers {
        var m :| 0 <= m < |b.peers| && b.peers[m] == q;
        assert t.peers[m] == q;
      }
    } else {
      assert t.peers[|b.peers|] == p;
    }
  }

  // ---- The handshake

  datatype Identity = Identity(name: string, key: PublicKey, addr: Option<string>)
  datatype Confirmation = Confirmation(joiner: Identity, listener: Identity)

  datatype Message =
    | JoinIdentity(identity: Identity) | ListenIdentity(identity: Identity)
    | JoinCommitted(confirmation: Confirmation) | ListenCommitted(confirmation: Confirmation)

  datatype Trust = Trust(localPeer: Option<string>, localSaved: bool, remoteMayTrust: bool) {
    predicate MayExist() {
      localPeer.Some? || remoteMayTrust
    }
  }

  /** Where a side is; each awaits the network or the store before it goes on. */
  datatype At =
    | SendIdentity | AwaitIdentity | Persist | SendCommitted | AwaitCommitted
    | Succeeded | GaveUp

  /** `wrote` says that the state file was replaced by one that holds the new peer. */
  datatype Side = Side(
    book: Book, disk: Book, local: Identity, remote: Option<Identity>, fallback: Option<string>,
    trust: Trust, at: At, wrote: bool)

  function PeerFrom(i: Identity, fallback: Option<string>): Peer {
    Peer(i.name, i.key, if i.addr.Some? && i.addr.value != "" then i.addr else fallback)
  }

  /** `validate_peer`: a new peer must also not be named like a command. */
  ghost predicate Acceptable(b: Book, p: Peer, commands: set<string>) {
    && ((exists q :: q in b.peers && q.name == p.name && q.key == p.key) || p.name !in commands)
    && UpdatePeer(b, p).Ok?
  }

  function Stop(s: Side): Side {
    s.(at := GaveUp)
  }

  /** `persist_peer`: the progress says that trust may exist before the store is touched. */
  ghost function PersistPeer(s: Side, room: bool, save: Save, next: At): Side
    requires s.remote.Some?
  {
    var peer := PeerFrom(s.remote.value, s.fallback);
    if s.book.name != s.local.name || s.book.key != s.local.key then Stop(s) else
    var t := s.(trust := s.trust.(localPeer := Some(peer.name)));
    var edited := UpdatePeer(s.book, peer);
    if edited.Err? || !room then Stop(t) else
    match save
    case Saved =>
      t.(book := edited.value, disk := edited.value, wrote := true, trust := t.trust.(localSaved := true), at := next)
    case Failed(replaced) =>
      Stop(t.(disk := if replaced then edited.value else t.disk, wrote := t.wrote || replaced))
  }

  datatype Pair = Pair(join: Side, listen: Side, toListen: set<Message>, toJoin: set<Message>)

  /** A write may fail and its message still arrive. */
  datatype Sent = Delivered | FailedButDelivered | Lost

  datatype Step =
    | JoinSends(sent: Sent) | ListenHears(identity: Identity) | ListenSends(sent: Sent) | JoinHears(identity: Identity)
    | JoinSaves(room: bool, save: Save) | JoinCommits(sent: Sent) | ListenConfirms(confirmation: Confirmation)
    | ListenSaves(room: bool, save: Save) | ListenCommits(sent: Sent) | JoinConfirms(confirmation: Confirmation)
    | JoinTimesOut | ListenTimesOut

  function Put(wire: set<Message>, m: Message, sent: Sent): set<Message> {
    if sent.Lost? then wire else wire + {m}
  }

  function Go(s: Side, sent: Sent, next: At): Side {
    if sent.Delivered? then s.(at := next) else Stop(s)
  }

  function Agreed(p: Pair, joiner: bool): Confirmation
    requires (if joiner then p.join.remote else p.listen.remote).Some?
  {
    if joiner then Confirmation(p.join.local, p.join.remote.value)
    else Confirmation(p.listen.remote.value, p.listen.local)
  }

  ghost predicate Steps(commands: set<string>, p: Pair, step: Step, p': Pair) {
    match step
    case JoinSends(sent) =>
      && p.join.at.SendIdentity?
      && p' == p.(join := Go(p.join, sent, AwaitIdentity),
                  toListen := Put(p.toListen, JoinIdentity(p.join.local), sent))
    case ListenHears(i) =>
      && p.listen.at.AwaitIdentity? && JoinIdentity(i) in p.toListen
      && p' == p.(listen :=
           if Acceptable(p.listen.book, PeerFrom(i, p.listen.fallback), commands)
           then p.listen.(remote := Some(i), trust := p.listen.trust.(remoteMayTrust := true), at := SendIdentity)
           else Stop(p.listen))
    case ListenSends(sent) =>
      && p.listen.at.SendIdentity? && p.listen.remote.Some?
      && p' == p.(listen := Go(p.listen, sent, AwaitCommitted),
                  toJoin := Put(p.toJoin, ListenIdentity(p.listen.local), sent))
    case JoinHears(i) =>
      && p.join.at.AwaitIdentity? && ListenIdentity(i) in p.toJoin
      && p' == p.(join :=
           if Acceptable(p.join.book, PeerFrom(i, p.join.fallback), commands)
           then p.join.(remote := Some(i), at := Persist) else Stop(p.join))
    case JoinSaves(room, save) =>
      && p.join.at.Persist? && p.join.remote.Some?
      && p' == p.(join := PersistPeer(p.join, room, save, SendCommitted))
    case JoinCommits(sent) =>
      && p.join.at.SendCommitted? && p.join.remote.Some?
      && p' == p.(join := Go(p.join.(trust := p.join.trust.(remoteMayTrust := true)), sent, AwaitCommitted),
                  toListen := Put(p.toListen, JoinCommitted(Agreed(p, true)), sent))
    case ListenConfirms(c) =>
      && p.listen.at.AwaitCommitted? && p.listen.remote.Some? && JoinCommitted(c) in p.toListen
      && p' == p.(listen := if c == Agreed(p, false) then p.listen.(at := Persist) else Stop(p.listen))
    case ListenSaves(room, save) =>
      && p.listen.at.Persist? && p.listen.remote.Some?
      && p' == p.(listen := PersistPeer(p.listen, room, save, SendCommitted))
    case ListenCommits(sent) =>
      && p.listen.at.SendCommitted? && p.listen.remote.Some?
      && p' == p.(listen := Go(p.listen, sent, Succeeded),
                  toJoin := Put(p.toJoin, ListenCommitted(Agreed(p, false)), sent))
    case JoinConfirms(c) =>
      && p.join.at.AwaitCommitted? && p.join.remote.Some? && ListenCommitted(c) in p.toJoin
      && p' == p.(join := if c == Agreed(p, true) then p.join.(at := Succeeded) else Stop(p.join))
    case JoinTimesOut => !p.join.at.Succeeded? && p' == p.(join := Stop(p.join))
    case ListenTimesOut => !p.listen.at.Succeeded? && p' == p.(listen := Stop(p.listen))
  }

  predicate Fresh(s: Side, at: At) {
    s.at == at && s.remote.None? && s.trust == Trust(None, false, false) && !s.wrote && s.disk == s.book
  }

  ghost predicate Starts(p: Pair) {
    && Fresh(p.join, SendIdentity) && Fresh(p.listen, AwaitIdentity) && p.toListen == {} && p.toJoin == {}
    && OneToOne(p.join.book) && OneToOne(p.listen.book)
  }

  ghost predicate Holds(b: Book, i: Identity) {
    exists q :: q in b.peers && q.name == i.name && q.key == i.key
  }

  ghost predicate SideOk(s: Side) {
    && OneToOne(s.book) && OneToOne(s.disk)
    && (s.wrote ==> s.remote.Some? && Holds(s.disk, s.remote.value) && s.trust.localPeer.Some?)
    && (s.trust.localSaved ==> s.wrote)
    && (s.at.Succeeded? ==> s.wrote)
  }

  ghost predicate PairOk(p: Pair) {
    && SideOk(p.join) && SideOk(p.listen)
    && (p.join.at in {SendCommitted, AwaitCommitted} ==> p.join.wrote)
    && (p.listen.at == SendCommitted ==> p.listen.wrote)
    && (p.join.at in {SendIdentity, AwaitIdentity} ==> !p.join.wrote)
    && (p.listen.at == SendIdentity ==> p.listen.trust.remoteMayTrust)
    && (p.listen.at in {AwaitIdentity, SendIdentity, AwaitCommitted} ==> !p.listen.wrote)
    && ((exists c :: JoinCommitted(c) in p.toListen) ==> p.join.wrote && p.join.trust.remoteMayTrust)
    && (p.listen.at == Persist || p.listen.wrote ==> exists c :: JoinCommitted(c) in p.toListen)
    && ((exists c :: ListenCommitted(c) in p.toJoin) ==> p.listen.wrote)
    && (p.join.at.Succeeded? ==> exists c :: ListenCommitted(c) in p.toJoin)
    && ((exists i :: ListenIdentity(i) in p.toJoin) ==> p.listen.trust.remoteMayTrust)
    && (p.join.remote.Some? ==> exists i :: ListenIdentity(i) in p.toJoin)
    && (forall i :: JoinIdentity(i) in p.toListen ==> i == p.join.local)
    && (forall i :: ListenIdentity(i) in p.toJoin ==> i == p.listen.local)
    && (p.join.remote.Some? ==> p.join.remote.value == p.listen.local)
    && (p.listen.remote.Some? ==> p.listen.remote.value == p.join.local)
  }

  lemma PersistOk(s: Side, room: bool, save: Save, next: At)
    requires SideOk(s) && s.remote.Some? && !s.at.Succeeded? && !next.Succeeded?
    ensures SideOk(PersistPeer(s, room, save, next))
    ensures PersistPeer(s, room, save, next).at in {next, GaveUp}
    ensures next != GaveUp && PersistPeer(s, room, save, next).at == next ==> PersistPeer(s, room, save, next).wrote
    ensures s.wrote ==> PersistPeer(s, room, save, next).wrote
    ensures PersistPeer(s, room, save, next).remote == s.remote
    ensures PersistPeer(s, room, save, next).trust.remoteMayTrust == s.trust.remoteMayTrust
  {
    var e := UpdatePeer(s.book, PeerFrom(s.remote.value, s.fallback));
    if e.Ok? {
      UpdatePeerKeeps(s.book, PeerFrom(s.remote.value, s.fallback), e.value);
    }
  }

  lemma JoinSavesKeeps(p: Pair, room: bool, save: Save)
    requires PairOk(p) && p.join.at.Persist? && p.join.remote.Some?
    ensures PairOk(p.(join := PersistPeer(p.join, room, save, SendCommitted)))
  {
    PersistOk(p.join, room, save, SendCommitted);
  }

  lemma ListenSavesKeeps(p: Pair, room: bool, save: Save)
    requires PairOk(p) && p.listen.at.Persist? && p.listen.remote.Some?
    ensures PairOk(p.(listen := PersistPeer(p.listen, room, save, SendCommitted)))
  {
    PersistOk(p.listen, room, save, SendCommitted);
  }

  lemma IdentitySendsKeep(commands: set<string>, p: Pair, step: Step, p': Pair)
    requires PairOk(p) && Steps(commands, p, step, p') && (step.JoinSends? || step.ListenSends?)
    ensures PairOk(p')
  {
    assert step.ListenSends? && !step.sent.Lost? ==> ListenIdentity(p.listen.local) in p'.toJoin;
  }

  lemma CommitSendsKeep(commands: set<string>, p: Pair, step: Step, p': Pair)
    requires PairOk(p) && Steps(commands, p, step, p') && (step.JoinCommits? || step.ListenCommits?)
    ensures PairOk(p')
  {
    if step.JoinCommits? {
      assert step.sent.Lost? || JoinCommitted(Agreed(p, true)) in p'.toListen;
    } else {
      assert step.sent.Lost? || ListenCommitted(Agreed(p, false)) in p'.toJoin;
    }
  }

  lemma PairStepKeeps(commands: set<string>, p: Pair, step: Step, p': Pair)
    requires PairOk(p) && Steps(commands, p, step, p')
    ensures PairOk(p')
  {
    match step
    case JoinSaves(room, save) => JoinSavesKeeps(p, room, save);
    case ListenSaves(room, save) => ListenSavesKeeps(p, room, save);
    case JoinSends(_) => IdentitySendsKeep(commands, p, step, p');
    case ListenSends(_) => IdentitySendsKeep(commands, p, step, p');
    case JoinCommits(_) => CommitSendsKeep(commands, p, step, p');
    case ListenCommits(_) => CommitSendsKeep(commands, p, step, p');
    case _ =>
  }

  ghost predicate Run(commands: set<string>, states: seq<Pair>, steps: seq<Step>) {
    && |states| == |steps| + 1 && Starts(states[0])
    && forall i {:trigger steps[i]} :: 0 <= i < |steps| ==> Steps(commands, states[i], steps[i], states[i + 1])
  }

  lemma EveryStepKeeps(commands: set<string>)
    ensures forall p, step, p' :: PairOk(p) && Steps(commands, p, step, p') ==> PairOk(p')
  {
    forall p, step, p' | PairOk(p) && Steps(commands, p, step, p') ensures PairOk(p') {
      PairStepKeeps(commands, p, step, p');
    }
  }

  lemma RunsStayOk(commands: set<string>, states: seq<Pair>, steps: seq<Step>, i: nat)
    requires Run(commands, states, steps) && i < |states|
    ensures PairOk(states[i])
  {
    EveryStepKeeps(commands);
    for n := 0 to i
      invariant PairOk(states[n])
    {
      var step := steps[n];
    }
  }

  /** Whatever is lost, late or saved with an unknown result, at every moment: if the listener's file
      has the new peer then so has the joiner's; success on either side means that both have; if the
      joiner's progress says that no trust may exist then neither has, and if the listener's says so
      the listener's has not and the joiner's has not either; what a file has is the other side's own
      identity; and both lists stay one-to-one. */
  lemma PairingIsHonest(commands: set<string>, states: seq<Pair>, steps: seq<Step>, i: nat)
    requires Run(commands, states, steps) && i < |states|
    ensures var p := states[i];
      && (p.listen.wrote ==> p.join.wrote)
      && (p.join.at.Succeeded? || p.listen.at.Succeeded? ==> p.join.wrote && p.listen.wrote)
      && (!p.join.trust.MayExist() ==> !p.join.wrote && !p.listen.wrote)
      && (!p.listen.trust.MayExist() ==> !p.join.wrote && !p.listen.wrote)
      && (p.join.wrote ==> Holds(p.join.disk, p.listen.local))
      && (p.listen.wrote ==> Holds(p.listen.disk, p.join.local))
      && OneToOne(p.join.disk) && OneToOne(p.listen.disk)
  {
    RunsStayOk(commands, states, steps, i);
  }

  // ---- When a handshake can come to its end

  /** The machine can be added: it has a proper name and key, neither of which is this machine's or another peer's, and
      unless it is known already its name is not a command's. */
  ghost predicate CanAdd(b: Book, i: Identity, commands: set<string>) {
    && ValidName(i.name) && i.key !in b.weak && i.name != b.name && i.key != b.key
    && (forall m :: 0 <= m < |b.peers| ==> (b.peers[m].name == i.name <==> b.peers[m].key == i.key))
    && (Holds(b, i) || i.name !in commands)
  }

  predicate OwnBook(s: Side) {
    s.book.name == s.local.name && s.book.key == s.local.key
  }

  /** Each side has its own identity, and each can add the other. */
  ghost predicate CanPair(p: Pair, commands: set<string>) {
    && OwnBook(p.join) && OwnBook(p.listen)
    && CanAdd(p.join.book, p.listen.local, commands) && CanAdd(p.listen.book, p.join.local, commands)
  }

  lemma AcceptableIff(b: Book, i: Identity, fallback: Option<string>, commands: set<string>)
    requires OneToOne(b)
    ensures Acceptable(b, PeerFrom(i, fallback), commands) <==> CanAdd(b, i, commands)
  {
    UpdatePeerIff(b, PeerFrom(i, fallback));
  }

  /** The peer under this identity, with the address it gave or else the one it was reached at. */
  ghost predicate Added(b: Book, i: Identity, fallback: Option<string>) {
    exists q :: q in b.peers && q.name == i.name && q.key == i.key
      && q.addr == if i.addr.Some? && i.addr.value != "" then i.addr else fallback
  }

  lemma SavesPeer(s: Side, next: At, commands: set<string>)
    requires OneToOne(s.book) && OwnBook(s) && s.remote.Some? && CanAdd(s.book, s.remote.value, commands)
    ensures var t := PersistPeer(s, true, Saved, next);
      && t.at == next && t.wrote && t.trust.localSaved && Added(t.disk, s.remote.value, s.fallback)
      && t == s.(book := t.book, disk := t.disk, wrote := true, trust := t.trust, at := next)
  {
    var peer := PeerFrom(s.remote.value, s.fallback);
    UpdatePeerIff(s.book, peer);
    UpdatePeerKeeps(s.book, peer, UpdatePeer(s.book, peer).value);
  }

  /** A side goes on exactly when it is still itself, can take the peer, has room and saved; and it writes only if it
      is itself, can take the peer and has room. */
  lemma PersistsIff(s: Side, room: bool, save: Save, next: At)
    requires s.remote.Some? && next != GaveUp && !s.wrote
    ensures var t, p := PersistPeer(s, room, save, next), PeerFrom(s.remote.value, s.fallback);
      var may := OwnBook(s) && room && UpdatePeer(s.book, p).Ok?;
      && (t.at == next <==> may && save == Saved)
      && (t.wrote <==> may && (save == Saved || save == Save.Failed(true)))
      && t.disk == (if t.wrote then UpdatePeer(s.book, p).value else s.disk)
      && (t.trust.localSaved <==> s.trust.localSaved || t.at == next)
      && (t.wrote ==> t.trust.localPeer == Some(s.remote.value.name))
  {
  }

  lemma FirstHalf(commands: set<string>, p: Pair) returns (states: seq<Pair>, steps: seq<Step>)
    requires Starts(p) && CanPair(p, commands)
    ensures |states| == |steps| + 1 == 6 && states[0] == p
    ensures forall i {:trigger steps[i]} :: 0 <= i < |steps| ==> Steps(commands, states[i], steps[i], states[i + 1])
    ensures var q := states[5];
      && q.join.at.SendCommitted? && q.join.wrote && Added(q.join.disk, p.listen.local, p.join.fallback)
      && q.join.local == p.join.local && q.join.remote == Some(p.listen.local)
      && q.listen == p.listen.(remote := Some(p.join.local), at := AwaitCommitted, trust := q.listen.trust)
  {
    AcceptableIff(p.listen.book, p.join.local, p.listen.fallback, commands);
    AcceptableIff(p.join.book, p.listen.local, p.join.fallback, commands);
    var p1 := p.(join := p.join.(at := AwaitIdentity), toListen := {JoinIdentity(p.join.local)});
    var p2 := p1.(listen := p1.listen.(remote := Some(p.join.local),
                                       trust := p1.listen.trust.(remoteMayTrust := true), at := SendIdentity));
    var p3 := p2.(listen := p2.listen.(at := AwaitCommitted), toJoin := {ListenIdentity(p.listen.local)});
    var p4 := p3.(join := p3.join.(remote := Some(p.listen.local), at := Persist));
    var p5 := p4.(join := PersistPeer(p4.join, true, Saved, SendCommitted));
    SavesPeer(p4.join, SendCommitted, commands);
    states, steps := FiveSteps(commands, p, p1, p2, p3, p4, p5, JoinSends(Delivered), ListenHears(p.join.local),
                               ListenSends(Delivered), JoinHears(p.listen.local), JoinSaves(true, Saved));
  }

  /** The joiner's confirmation reaches the listener. */
  lemma JoinerConfirms(commands: set<string>, q: Pair, c: Confirmation) returns (q1: Pair, q2: Pair)
    requires q.join.at.SendCommitted? && q.listen.at.AwaitCommitted?
    requires q.join.remote.Some? && q.listen.remote.Some? && c == Agreed(q, true) == Agreed(q, false)
    ensures Steps(commands, q, JoinCommits(Delivered), q1) && Steps(commands, q1, ListenConfirms(c), q2)
    ensures q2.join == q.join.(trust := q2.join.trust, at := AwaitCommitted)
    ensures q2.listen == q.listen.(at := Persist)
  {
    q1 := q.(join := q.join.(trust := q.join.trust.(remoteMayTrust := true), at := AwaitCommitted),
             toListen := q.toListen + {JoinCommitted(c)});
    q2 := q1.(listen := q1.listen.(at := Persist));
  }

  /** The listener saves the joiner and confirms it. */
  lemma ListenerConfirms(commands: set<string>, q: Pair, c: Confirmation) returns (q1: Pair, q2: Pair, q3: Pair)
    requires q.join.at.AwaitCommitted? && q.listen.at.Persist?
    requires q.join.remote.Some? && q.listen.remote.Some? && c == Agreed(q, true) == Agreed(q, false)
    requires OneToOne(q.listen.book) && OwnBook(q.listen) && CanAdd(q.listen.book, q.listen.remote.value, commands)
    ensures Steps(commands, q, ListenSaves(true, Saved), q1) && Steps(commands, q1, ListenCommits(Delivered), q2)
    ensures Steps(commands, q2, JoinConfirms(c), q3)
    ensures q3.join == q.join.(at := Succeeded) && q3.listen.at.Succeeded? && q3.listen.wrote
    ensures Added(q3.listen.disk, q.listen.remote.value, q.listen.fallback)
  {
    SavesPeer(q.listen, SendCommitted, commands);
    q1 := q.(listen := PersistPeer(q.listen, true, Saved, SendCommitted));
    q2 := q1.(listen := q1.listen.(at := Succeeded), toJoin := q1.toJoin + {ListenCommitted(c)});
    q3 := q2.(join := q2.join.(at := Succeeded));
  }

  lemma SecondHalf(commands: set<string>, p: Pair, q: Pair) returns (states: seq<Pair>, steps: seq<Step>)
    requires OneToOne(p.listen.book) && OwnBook(p.listen) && CanAdd(p.listen.book, p.join.local, commands)
    requires q.join.at.SendCommitted? && q.join.local == p.join.local && q.join.remote == Some(p.listen.local)
    requires q.listen == p.listen.(remote := Some(p.join.local), at := AwaitCommitted, trust := q.listen.trust)
    ensures |states| == |steps| + 1 == 6 && states[0] == q
    ensures forall i {:trigger steps[i]} :: 0 <= i < |steps| ==> Steps(commands, states[i], steps[i], states[i + 1])
    ensures var r := states[5];
      && r.join.at.Succeeded? && r.listen.at.Succeeded? && r.join.disk == q.join.disk && r.join.wrote == q.join.wrote
      && r.listen.wrote && Added(r.listen.disk, p.join.local, p.listen.fallback)
  {
    var c := Confirmation(p.join.local, p.listen.local);
    var q1, q2 := JoinerConfirms(commands, q, c);
    var q3, q4, q5 := ListenerConfirms(commands, q2, c);
    states, steps := FiveSteps(commands, q, q1, q2, q3, q4, q5, JoinCommits(Delivered), ListenConfirms(c),
                               ListenSaves(true, Saved), ListenCommits(Delivered), JoinConfirms(c));
  }

  lemma FiveSteps(commands: set<string>, p0: Pair, p1: Pair, p2: Pair, p3: Pair, p4: Pair, p5: Pair,
                  s0: Step, s1: Step, s2: Step, s3: Step, s4: Step)
    returns (states: seq<Pair>, steps: seq<Step>)
    requires Steps(commands, p0, s0, p1) && Steps(commands, p1, s1, p2) && Steps(commands, p2, s2, p3)
    requires Steps(commands, p3, s3, p4) && Steps(commands, p4, s4, p5)
    ensures |states| == |steps| + 1 == 6 && states[0] == p0 && states[5] == p5
    ensures forall i {:trigger steps[i]} :: 0 <= i < |steps| ==> Steps(commands, states[i], steps[i], states[i + 1])
  {
    states, steps := [p0, p1, p2, p3, p4, p5], [s0, s1, s2, s3, s4];
    forall i {:trigger steps[i]} | 0 <= i < |steps| ensures Steps(commands, states[i], steps[i], states[i + 1]) {
      assert i == 0 || i == 1 || i == 2 || i == 3 || i == 4;
    }
  }

  /** If each side can add the other, some run ends with success on both sides and each in the other's file, under the
      address it gave or was reached at. */
  lemma HandshakeCanSucceed(commands: set<string>, p: Pair) returns (states: seq<Pair>, steps: seq<Step>)
    requires Starts(p) && CanPair(p, commands)
    ensures Run(commands, states, steps) && states[0] == p
    ensures var r := states[|states| - 1];
      && r.join.at.Succeeded? && r.listen.at.Succeeded?
      && Added(r.join.disk, p.listen.local, p.join.fallback) && Added(r.listen.disk, p.join.local, p.listen.fallback)
  {
    var first, begun := FirstHalf(commands, p);
    var second, ended := SecondHalf(commands, p, first[5]);
    states, steps := first[..5] + second, begun + ended;
    forall i {:trigger steps[i]} | 0 <= i < |steps| ensures Steps(commands, states[i], steps[i], states[i + 1]) {
      if i < 5 {
        assert steps[i] == begun[i] && states[i] == first[i] && states[i + 1] == first[i + 1];
      } else {
        assert steps[i] == ended[i - 5] && states[i] == second[i - 5] && states[i + 1] == second[i - 4];
      }
    }
  }

  /** What a side has heard it could add, to the list that it still has unless it has written. */
  ghost predicate HeardOk(p: Pair, p0: Pair, commands: set<string>) {
    && p.join.local == p0.join.local && p.listen.local == p0.listen.local
    && (!p.join.wrote ==> p.join.book == p0.join.book) && (!p.listen.wrote ==> p.listen.book == p0.listen.book)
    && (p.join.remote.Some? ==> CanAdd(p0.join.book, p0.listen.local, commands) && p.listen.remote.Some?)
    && (p.listen.remote.Some? ==> CanAdd(p0.listen.book, p0.join.local, commands))
    && ((exists i :: ListenIdentity(i) in p.toJoin) ==> p.listen.remote.Some?)
    && (p.join.wrote ==> OwnBook(p0.join)) && (p.listen.wrote ==> OwnBook(p0.listen))
  }

  lemma HeardStaysOk(commands: set<string>, p: Pair, step: Step, p': Pair, p0: Pair)
    requires PairOk(p) && HeardOk(p, p0, commands) && Steps(commands, p, step, p')
    requires OneToOne(p0.join.book) && OneToOne(p0.listen.book)
    ensures HeardOk(p', p0, commands)
  {
    match step
    case ListenHears(i) => AcceptableIff(p.listen.book, i, p.listen.fallback, commands);
    case JoinHears(i) => AcceptableIff(p.join.book, i, p.join.fallback, commands);
    case _ =>
  }

  /** And only then: a machine that could not be added by the other, or adds under another identity than its own, is
      never in either file. */
  lemma OnlyPairableAreSaved(commands: set<string>, states: seq<Pair>, steps: seq<Step>, i: nat)
    requires Run(commands, states, steps) && i < |states|
    ensures states[i].join.wrote && states[i].listen.wrote ==> CanPair(states[0], commands)
    ensures states[i].join.wrote || states[i].listen.wrote ==>
      && OwnBook(states[0].join) && CanAdd(states[0].join.book, states[0].listen.local, commands)
      && CanAdd(states[0].listen.book, states[0].join.local, commands)
  {
    for n := 0 to i
      invariant HeardOk(states[n], states[0], commands)
    {
      RunsStayOk(commands, states, steps, n);
      var step := steps[n];
      HeardStaysOk(commands, states[n], step, states[n + 1], states[0]);
    }
    RunsStayOk(commands, states, steps, i);
  }

  // ---- Trying one machine after another

  datatype Tried = NoAnswer | Attempt(ok: bool, trustMayExist: bool)

  /** It goes on only after no answer, or an attempt that failed and reports that no trust may exist. */
  ghost predicate StopsAt(tries: seq<Tried>, ok: bool, used: nat) {
    && used <= |tries|
    && (forall i :: 0 <= i < used - 1 ==> tries[i].NoAnswer? || (!tries[i].ok && !tries[i].trustMayExist))
    && (ok <==> used > 0 && tries[used - 1].Attempt? && tries[used - 1].ok)
    && (used < |tries| ==>
          used > 0 && tries[used - 1].Attempt? && (tries[used - 1].ok || tries[used - 1].trustMayExist))
  }

  /** The loop of `pair_join_any` over the answers of the machines it dials. */
  method JoinAny(tries: seq<Tried>) returns (ok: bool, used: nat)
    ensures StopsAt(tries, ok, used)
  {
    used := 0;
    while used < |tries|
      invariant used <= |tries|
      invariant forall i :: 0 <= i < used ==> tries[i].NoAnswer? || (!tries[i].ok && !tries[i].trustMayExist)
    {
      var t := tries[used];
      used := used + 1;
      if t.Attempt? {
        if t.ok {
          return true, used;
        }
        if t.trustMayExist {
          return false, used;
        }
      }
    }
    return false, used;
  }

  /** A machine that was dialed: silent, or a handshake in which the joiner came to its end at one moment and the
      listener may go on. */
  datatype Dial = Silent | Shaken(states: seq<Pair>, steps: seq<Step>, ended: nat)

  ghost predicate Dialed(commands: set<string>, d: Dial) {
    d.Shaken? ==>
      Run(commands, d.states, d.steps) && d.ended < |d.states| && d.states[d.ended].join.at in {Succeeded, GaveUp}
  }

  /** What the joiner's own progress says at its end. */
  function Report(d: Dial): Tried
    requires d.Shaken? ==> d.ended < |d.states|
  {
    if d.Silent? then NoAnswer
    else Attempt(d.states[d.ended].join.at.Succeeded?, d.states[d.ended].join.trust.MayExist())
  }

  /** Neither file has the other machine, then or ever after. */
  predicate LeavesNothing(d: Dial) {
    d.Shaken? ==> forall j :: d.ended <= j < |d.states| ==> !d.states[j].join.wrote && !d.states[j].listen.wrote
  }

  lemma EndedJoinerStays(commands: set<string>, states: seq<Pair>, steps: seq<Step>, i: nat, j: nat)
    requires Run(commands, states, steps) && i <= j < |states| && states[i].join.at in {Succeeded, GaveUp}
    ensures states[j].join == states[i].join
  {
    for n := i to j
      invariant states[n].join == states[i].join
    {
      assert Steps(commands, states[n], steps[n], states[n + 1]);
    }
  }

  lemma NoTrustLeavesNothing(commands: set<string>, d: Dial)
    requires Dialed(commands, d) && (d.Shaken? ==> !Report(d).trustMayExist)
    ensures LeavesNothing(d)
  {
    if d.Shaken? {
      forall j | d.ended <= j < |d.states| ensures !d.states[j].join.wrote && !d.states[j].listen.wrote {
        EndedJoinerStays(commands, d.states, d.steps, d.ended, j);
        PairingIsHonest(commands, d.states, d.steps, j);
      }
    }
  }

  /** However many machines are tried, at most the last one is left with trust on either side, now or later; if the
      join succeeds both sides have it; and if it stops early without success, the joiner says that trust may
      exist. */
  lemma OnlyTheLastMayTrust(commands: set<string>, dials: seq<Dial>, tries: seq<Tried>, ok: bool, used: nat)
    requires |tries| == |dials| && StopsAt(tries, ok, used)
    requires forall i :: 0 <= i < |dials| ==> Dialed(commands, dials[i]) && tries[i] == Report(dials[i])
    ensures forall i :: 0 <= i < used - 1 ==> LeavesNothing(dials[i])
    ensures ok ==>
      var d := dials[used - 1];
      d.Shaken? && forall j :: d.ended <= j < |d.states| ==> d.states[j].join.wrote && d.states[j].listen.wrote
    ensures !ok && used < |dials| ==> tries[used - 1].trustMayExist
    ensures !ok && used > 0 && (tries[used - 1].Attempt? ==> !tries[used - 1].trustMayExist) ==>
      LeavesNothing(dials[used - 1])
  {
    forall i | 0 <= i < used && (tries[i].NoAnswer? || !tries[i].trustMayExist) ensures LeavesNothing(dials[i]) {
      NoTrustLeavesNothing(commands, dials[i]);
    }
    if ok {
      var d := dials[used - 1];
      forall j | d.ended <= j < |d.states| ensures d.states[j].join.wrote && d.states[j].listen.wrote {
        EndedJoinerStays(commands, d.states, d.steps, d.ended, j);
        PairingIsHonest(commands, d.states, d.steps, j);
      }
    }
  }
}
