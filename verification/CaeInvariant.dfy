// What every reachable state of the daemon satisfies.
module CaeInvariant {
  import opened AlsaStream
  import opened AlsaCapture
  import opened PlaySessions
  import opened CaeModel

  // ----- The invariant -------------------------------------------------------------

  predicate Live(connections: map<Int32, Connection>, id: Int32) {
    id > 0 && id in connections && connections[id].authenticated
  }

  // Every session is filed under its handle and belongs to a live connection.
  ghost predicate Owned(connections: map<Int32, Connection>, sessions: map<UInt64, Session>) {
    forall h :: h in sessions ==>
        Live(connections, sessions[h].sock) && MakeHandle(sessions[h].sock, sessions[h].serial) == h
  }

  // Every session has a ring of its own.
  ghost predicate Housed(c: Config, sessions: map<UInt64, Session>, slots: map<Key, Slot>) {
    forall h :: h in sessions ==>
      IsSlot(c, Place(sessions[h])) && Place(sessions[h]) in slots && slots[Place(sessions[h])].ring.Some?
  }

  ghost predicate Apart(sessions: map<UInt64, Session>) {
    forall h, g :: h in sessions && g in sessions && Place(sessions[h]) == Place(sessions[g]) ==> h == g
  }

  // A record port is loaded exactly while a live connection owns it.
  ghost predicate Locked(c: Config, connections: map<Int32, Connection>, locks: map<Key, Lock>,
      ports: map<Key, RecordPort>) {
    && (forall k :: k in locks && locks[k].owner != NOBODY ==>
          Live(connections, locks[k].owner) && IsPort(c, k) && k in ports && ports[k].ring.Some?)
    && (forall k :: k in ports && ports[k].ring.Some? ==> k in locks && locks[k].owner != NOBODY)
  }

  function Rings(slots: map<Key, Slot>): set<Key> {
    set k | k in slots && slots[k].ring.Some?
  }

  function Places(sessions: map<UInt64, Session>): set<Key> {
    set h | h in sessions :: Place(sessions[h])
  }

  // Rings that no session leads to.
  function Stray(sessions: map<UInt64, Session>, slots: map<Key, Slot>): set<Key> {
    Rings(slots) - Places(sessions)
  }

  function Lost(st: State): set<Key> {
    Stray(st.sessions, st.slots)
  }

  ghost predicate Inv(c: Config, st: State) {
    && Owned(st.connections, st.sessions)
    && Housed(c, st.sessions, st.slots)
    && Apart(st.sessions)
    && Locked(c, st.connections, st.locks, st.ports)
    && |Lost(st)| == st.reloads
  }

  // A later state of a run from st.
  ghost predicate Follows(c: Config, st: State, next: State) {
    Inv(c, next) && Lost(st) <= Lost(next) && (Lost(st) == Lost(next) || st.reloads < next.reloads)
  }

  // ----- The owner of a place ------------------------------------------------------

  lemma OwnerOf(c: Config, st: State, h: UInt64)
    requires Inv(c, st) && h in st.sessions
    ensures GetPlayHandle(st.sessions, Place(st.sessions[h])) == h
    ensures SocketDescriptor(h) == st.sessions[h].sock && SerialNumber(h) == st.sessions[h].serial && h != 0
  {
    HandleOfPair(st.sessions[h].sock, st.sessions[h].serial);
  }

  lemma NoOwner(c: Config, st: State, k: Key)
    requires Inv(c, st) && k !in Places(st.sessions)
    ensures GetPlayHandle(st.sessions, k) == 0 && 0 !in st.sessions
  {
    if 0 in st.sessions {
      HandleOfPair(st.sessions[0].sock, st.sessions[0].serial);
    }
    forall h | h in st.sessions ensures Place(st.sessions[h]) != k {
      assert Place(st.sessions[h]) in Places(st.sessions);
    }
  }

  // An announcement goes to the connection of the session at the place, if there is one.
  lemma PlayUpdateReachesOwner(c: Config, st: State, k: Key, playing: bool)
    requires Inv(c, st)
    ensures forall h :: h in st.sessions && Place(st.sessions[h]) == k ==>
              var s := st.sessions[h];
              StatePlayUpdate(st, k, playing) == st.(sent := st.sent +
                [Message(s.sock, Echo(if playing then PY(s.serial, s.length, s.speed, 0) else SP(s.serial), true))])
    ensures k !in Places(st.sessions) ==> StatePlayUpdate(st, k, playing) == st
  {
    if k !in Places(st.sessions) {
      NoOwner(c, st, k);
    } else {
      var h :| h in st.sessions && Place(st.sessions[h]) == k;
      OwnerOf(c, st, h);
      assert Live(st.connections, st.sessions[h].sock);
    }
  }

  lemma PlayUpdateFollows(c: Config, st: State, k: Key, playing: bool)
    requires Inv(c, st)
    ensures StatePlayUpdate(st, k, playing) == st.(sent := StatePlayUpdate(st, k, playing).sent)
  {
    PlayUpdateReachesOwner(c, st, k, playing);
    if k in Places(st.sessions) {
      var h :| h in st.sessions && Place(st.sessions[h]) == k;
    }
  }

  lemma RecordUpdateFollows(c: Config, st: State, k: Key, started: bool)
    requires Inv(c, st)
    ensures StateRecordUpdate(st, k, started) == st.(sent := StateRecordUpdate(st, k, started).sent)
  {
  }

  // ----- Slots ----------------------------------------------------------------------

  lemma SameRings(slots: map<Key, Slot>, k: Key, s: Slot)
    requires s.ring.Some? <==> k in slots && slots[k].ring.Some?
    ensures Rings(slots[k := s]) == Rings(slots)
  {
  }

  lemma HousedByRings(c: Config, sessions: map<UInt64, Session>, slots: map<Key, Slot>, others: map<Key, Slot>)
    requires Housed(c, sessions, slots) && Rings(slots) <= Rings(others)
    ensures Housed(c, sessions, others)
  {
    forall h | h in sessions ensures Place(sessions[h]) in others && others[Place(sessions[h])].ring.Some? {
      assert Place(sessions[h]) in Rings(slots);
    }
  }

  // Changing a slot without giving or taking its ring.
  lemma SlotChangeKeeps(c: Config, st: State, k: Key, s: Slot)
    requires Inv(c, st) && (s.ring.Some? <==> SlotAt(st, k).ring.Some?)
    ensures Inv(c, WithSlot(st, k, s))
  {
    SlotChangeFollows(c, st, k, s);
  }

  lemma SlotChangeFollows(c: Config, st: State, k: Key, s: Slot)
    requires Inv(c, st) && (s.ring.Some? <==> SlotAt(st, k).ring.Some?)
    ensures Follows(c, st, st.(slots := st.slots[k := s]))
  {
    SameRings(st.slots, k, s);
    HousedByRings(c, st.sessions, st.slots, st.slots[k := s]);
    FollowsByParts(c, st, WithSlot(st, k, s));
  }

  lemma {:induction false} FreeStreamIsFirst(c: Config, slots: map<Key, Slot>, card: nat, j: nat)
    requires j <= c.streams
    ensures var i := FreeStream(c, slots, card, j);
      && j <= i <= c.streams && (i < c.streams ==> SlotIn(slots, Key(card, i)).ring.None?)
      && (forall n :: j <= n < i ==> SlotIn(slots, Key(card, n)).ring.Some?)
    decreases c.streams - j
  {
    if j < c.streams && SlotIn(slots, Key(card, j)).ring.Some? {
      FreeStreamIsFirst(c, slots, card, j + 1);
    }
  }

  // A session that is loaded takes the place k.
  lemma PlacesAfterLoad(sessions: map<UInt64, Session>, h: UInt64, s: Session)
    requires Apart(sessions) && Place(s) !in Places(sessions)
    ensures Apart(sessions[h := s])
    ensures Places(sessions[h := s]) ==
            (if h in sessions then Places(sessions) - {Place(sessions[h])} else Places(sessions)) + {Place(s)}
  {
    var t := sessions[h := s];
    forall g | g in sessions ensures Place(sessions[g]) != Place(s) {
      assert Place(sessions[g]) in Places(sessions);
    }
    var gone := if h in sessions then {Place(sessions[h])} else {};
    forall p | p in Places(sessions) - gone ensures p in Places(t) {
      var g :| g in sessions && Place(sessions[g]) == p;
      assert g in t && t[g] == sessions[g];
    }
    assert Place(s) in Places(t) by {
      assert h in t && t[h] == s;
    }
    forall p | p in Places(t) ensures p in Places(sessions) - gone + {Place(s)} {
      var g :| g in t && Place(t[g]) == p;
      if g != h {
        assert g in sessions && t[g] == sessions[g];
      }
    }
  }

  lemma StrayAfterLoad(c: Config, sessions: map<UInt64, Session>, slots: map<Key, Slot>, h: UInt64, s: Session,
      slot: Slot)
    requires Apart(sessions) && Housed(c, sessions, slots) && slot.ring.Some?
    requires Place(s) in slots ==> slots[Place(s)].ring.None?
    ensures Place(s) !in Places(sessions)
    ensures Stray(sessions[h := s], slots[Place(s) := slot]) ==
            Stray(sessions, slots) + if h in sessions then {Place(sessions[h])} else {}
    ensures h in sessions ==> Place(sessions[h]) !in Stray(sessions, slots)
  {
    var k := Place(s);
    assert k !in Places(sessions);
    PlacesAfterLoad(sessions, h, s);
    assert Rings(slots[k := slot]) == Rings(slots) + {k};
    assert k !in Rings(slots);
    if h in sessions {
      assert Place(sessions[h]) in Places(sessions) && Place(sessions[h]) in Rings(slots);
    }
  }

  lemma NewSessionFields(id: Int32, serial: UInt32, card: nat, port: nat, j: nat)
    ensures NewSession(MakeHandle(id, serial), card, port, j) == Session(id, serial, card, port, j, 0, 100000)
  {
    HandleOfPair(id, serial);
  }

  lemma OwnedAfterLoad(connections: map<Int32, Connection>, sessions: map<UInt64, Session>, h: UInt64, s: Session)
    requires Owned(connections, sessions) && Live(connections, s.sock) && MakeHandle(s.sock, s.serial) == h
    ensures Owned(connections, sessions[h := s])
  {
  }

  lemma StrayCount(c: Config, sessions: map<UInt64, Session>, slots: map<Key, Slot>, h: UInt64, s: Session, slot: Slot)
    requires Apart(sessions) && Housed(c, sessions, slots) && slot.ring.Some?
    requires Place(s) in slots ==> slots[Place(s)].ring.None?
    ensures Apart(sessions[h := s])
    ensures var before, after := Stray(sessions, slots), Stray(sessions[h := s], slots[Place(s) := slot]);
            && before <= after && (h !in sessions ==> before == after)
            && |after| == |before| + if h in sessions then 1 else 0
  {
    StrayAfterLoad(c, sessions, slots, h, s, slot);
    PlacesAfterLoad(sessions, h, s);
  }

  lemma HousedAfterLoad(c: Config, sessions: map<UInt64, Session>, slots: map<Key, Slot>, h: UInt64, s: Session,
      slot: Slot)
    requires Housed(c, sessions, slots) && IsSlot(c, Place(s)) && slot.ring.Some?
    requires Place(s) in slots ==> slots[Place(s)].ring.None?
    ensures Housed(c, sessions[h := s], slots[Place(s) := slot]) && Place(s) !in Places(sessions)
  {
  }

  // A new session takes a slot whose ring was free.
  lemma NewSessionFollows(c: Config, st: State, h: UInt64, s: Session, slot: Slot)
    requires Inv(c, st) && Live(st.connections, s.sock) && MakeHandle(s.sock, s.serial) == h
    requires IsSlot(c, Place(s)) && SlotAt(st, Place(s)).ring.None? && slot.ring.Some?
    ensures Follows(c, st, Enlist(WithSlot(st, Place(s), slot), h, s))
  {
    OwnedAfterLoad(st.connections, st.sessions, h, s);
    HousedAfterLoad(c, st.sessions, st.slots, h, s, slot);
    StrayCount(c, st.sessions, st.slots, h, s, slot);
    FollowsByParts(c, st, Enlist(WithSlot(st, Place(s), slot), h, s));
  }

  lemma FollowsByParts(c: Config, st: State, next: State)
    requires Inv(c, st)
    requires next == st.(sessions := next.sessions, slots := next.slots, reloads := next.reloads)
    requires Owned(st.connections, next.sessions) && Housed(c, next.sessions, next.slots) && Apart(next.sessions)
    requires Lost(st) <= Lost(next) && (st.reloads == next.reloads ==> Lost(st) == Lost(next))
    requires next.reloads - st.reloads == |Lost(next)| - |Lost(st)| >= 0
    ensures Follows(c, st, next)
  {
  }

  // ----- What one client can change ---------------------------------------------------

  function OwnerIn(locks: map<Key, Lock>, k: Key): Int32 {
    if k in locks then locks[k].owner else NOBODY
  }

  ghost predicate OthersKeep(sessions: map<UInt64, Session>, slots: map<Key, Slot>,
                             sessions1: map<UInt64, Session>, slots1: map<Key, Slot>, id: Int32)
  {
    forall h :: h in sessions && sessions[h].sock != id ==>
      h in sessions1 && sessions1[h] == sessions[h]
      && SlotIn(slots1, Place(sessions[h])) == SlotIn(slots, Place(sessions[h]))
  }

  ghost predicate OthersGain(sessions: map<UInt64, Session>, sessions1: map<UInt64, Session>, id: Int32) {
    forall h :: h in sessions1 && sessions1[h].sock != id ==> h in sessions && sessions[h] == sessions1[h]
  }

  // A lock passes only between nobody and the client.
  ghost predicate LocksPass(locks: map<Key, Lock>, locks1: map<Key, Lock>, id: Int32) {
    forall k :: Passes(OwnerIn(locks, k), OwnerIn(locks1, k), id)
  }

  predicate Passes(owner: Int32, owner1: Int32, id: Int32) {
    owner1 == owner || ((owner == NOBODY || owner == id) && (owner1 == NOBODY || owner1 == id))
  }

  // Other connections, their sessions with their slots, and their locks stay as they are.
  ghost predicate Local(st: State, next: State, id: Int32) {
    && next.connections - {id} == st.connections - {id}
    && OthersKeep(st.sessions, st.slots, next.sessions, next.slots, id)
    && OthersGain(st.sessions, next.sessions, id)
    && LocksPass(st.locks, next.locks, id)
  }

  ghost predicate Moved(c: Config, st: State, next: State, id: Int32) {
    Follows(c, st, next) && Local(st, next, id)
  }

  ghost predicate Kept(c: Config, st: State, next: State, id: Int32) {
    Moved(c, st, next, id) && next.log == st.log
  }

  lemma MovedTwice(c: Config, a: State, b: State, d: State, id: Int32)
    requires Inv(c, a) && Moved(c, a, b, id) && Moved(c, b, d, id)
    ensures Moved(c, a, d, id)
  {
    OthersTwice(a.sessions, a.slots, b.sessions, b.slots, d.sessions, d.slots, id);
    assert LocksPass(a.locks, d.locks, id);
  }

  lemma OthersTwice(sessions: map<UInt64, Session>, slots: map<Key, Slot>, sessions1: map<UInt64, Session>,
                    slots1: map<Key, Slot>, sessions2: map<UInt64, Session>, slots2: map<Key, Slot>, id: Int32)
    requires OthersKeep(sessions, slots, sessions1, slots1, id) && OthersKeep(sessions1, slots1, sessions2, slots2, id)
    requires OthersGain(sessions, sessions1, id) && OthersGain(sessions1, sessions2, id)
    ensures OthersKeep(sessions, slots, sessions2, slots2, id) && OthersGain(sessions, sessions2, id)
  {
  }

  // Messages change nothing else.
  lemma KeptApart(c: Config, st: State, st1: State, next: State, id: Int32)
    requires Kept(c, st, st1, id) && next == st1.(sent := next.sent, fault := next.fault)
    ensures Kept(c, st, next, id)
  {
  }

  lemma KeptSelf(c: Config, st: State, next: State, id: Int32)
    requires Inv(c, st) && next == st.(sent := next.sent, fault := next.fault)
    ensures Kept(c, st, next, id)
  {
  }

  // ----- Play commands ------------------------------------------------------------------

  lemma LoadOthersKeep(c: Config, sessions: map<UInt64, Session>, slots: map<Key, Slot>, h: UInt64, s: Session,
      slot: Slot)
    requires Housed(c, sessions, slots) && SlotIn(slots, Place(s)).ring.None? &&
        (h in sessions ==> sessions[h].sock == s.sock)
    ensures OthersKeep(sessions, slots, sessions[h := s], slots[Place(s) := slot], s.sock)
    ensures OthersGain(sessions, sessions[h := s], s.sock)
  {
  }

  lemma TakeSlotKept(c: Config, st: State, h: UInt64, s: Session, slot: Slot)
    requires Inv(c, st) && Live(st.connections, s.sock) && MakeHandle(s.sock, s.serial) == h
    requires IsSlot(c, Place(s)) && SlotAt(st, Place(s)).ring.None? && slot.ring.Some?
    ensures Kept(c, st, Enlist(WithSlot(st, Place(s), slot), h, s), s.sock)
  {
    NewSessionFollows(c, st, h, s, slot);
    HandleInUse(st.connections, st.sessions, s.sock, s.serial);
    LoadOthersKeep(c, st.sessions, st.slots, h, s, slot);
    SessionsKept(c, st, Enlist(WithSlot(st, Place(s), slot), h, s), s.sock);
  }

  lemma SessionsKept(c: Config, st: State, next: State, id: Int32)
    requires Follows(c, st, next)
    requires next == st.(sessions := next.sessions, slots := next.slots, reloads := next.reloads)
    requires OthersKeep(st.sessions, st.slots, next.sessions, next.slots, id)
    requires OthersGain(st.sessions, next.sessions, id)
    ensures Kept(c, st, next, id)
  {
  }

  lemma LoadsKept(c: Config, st: State, next: State, id: Int32, cmd: Command, j: nat, slot: Slot)
    requires Inv(c, st) && !st.fault && Live(st.connections, id) && cmd.LP? && IsSlot(c, Key(cmd.card, j))
    requires SlotAt(st, Key(cmd.card, j)).ring.None? && slot.ring.Some?
    requires next == AfterLoad(st, id, cmd, Key(cmd.card, j), slot)
    ensures Kept(c, st, next, id) && !next.fault
  {
    var h := MakeHandle(id, cmd.serial);
    NewSessionFields(id, cmd.serial, cmd.card, cmd.port, j);
    var s := NewSession(h, cmd.card, cmd.port, j);
    TakeSlotKept(c, st, h, s, slot);
    KeptApart(c, st, Enlist(WithSlot(st, Key(cmd.card, j), slot), h, s), next, id);
  }

  predicate FindsStream(c: Config, st: State, cmd: Command, disk: Disk)
    requires cmd.LP?
  {
    && cmd.card < |c.formats| && !c.formats[cmd.card].exiting && FreeStream(c, st.slots, cmd.card, 0) < c.streams
    && cmd.name in disk.waves
  }

  predicate LoadFaults(c: Config, st: State, cmd: Command, disk: Disk)
    requires cmd.LP?
  {
    FindsStream(c, st, cmd, disk) && FaultsAtLoad(c.formats[cmd.card], disk.waves[cmd.name])
  }

  lemma LoadPlaybackLoads(c: Config, st: State, id: Int32, cmd: Command, disk: Disk) returns (slot: Slot)
    requires cmd.LP? && FindsStream(c, st, cmd, disk) && !LoadFaults(c, st, cmd, disk)
    ensures slot.ring.Some?
    ensures LoadPlayback(c, st, id, cmd, disk) ==
            AfterLoad(st, id, cmd, Key(cmd.card, FreeStream(c, st.slots, cmd.card, 0)), slot)
    ensures slot == Step(c.formats[cmd.card], SlotAt(st, Key(cmd.card, FreeStream(c, st.slots, cmd.card, 0))),
        Load(disk.waves[cmd.name])).stream
    ensures SlotAt(st, Key(cmd.card, FreeStream(c, st.slots, cmd.card, 0))).ring.None?
  {
    FreeStreamIsFirst(c, st.slots, cmd.card, 0);
    var s, e := SlotAt(st, Key(cmd.card, FreeStream(c, st.slots, cmd.card, 0))), Load(disk.waves[cmd.name]);
    slot := Step(c.formats[cmd.card], s, e).stream;
  }

  lemma LoadPlaybackGood(c: Config, st: State, id: Int32, cmd: Command, disk: Disk)
    requires Inv(c, st) && !st.fault && Live(st.connections, id) && cmd.LP?
    ensures var next := LoadPlayback(c, st, id, cmd, disk);
            Kept(c, st, next, id) && (next.fault <==> LoadFaults(c, st, cmd, disk))
  {
    if FindsStream(c, st, cmd, disk) && !LoadFaults(c, st, cmd, disk) {
      var slot := LoadPlaybackLoads(c, st, id, cmd, disk);
      LoadsKept(c, st, LoadPlayback(c, st, id, cmd, disk), id, cmd, FreeStream(c, st.slots, cmd.card, 0), slot);
    } else {
      KeptSelf(c, st, LoadPlayback(c, st, id, cmd, disk), id);
    }
  }

  lemma HandleInUse(connections: map<Int32, Connection>, sessions: map<UInt64, Session>, id: Int32, serial: UInt32)
    requires Owned(connections, sessions)
    ensures var h := MakeHandle(id, serial); h in sessions ==> sessions[h].sock == id && sessions[h].serial == serial
  {
    var h := MakeHandle(id, serial);
    if h in sessions {
      HandleOfPair(id, serial);
      HandleOfPair(sessions[h].sock, sessions[h].serial);
    }
  }

  lemma StrayAfterUnload(sessions: map<UInt64, Session>, slots: map<Key, Slot>, h: UInt64, s: Slot)
    requires Apart(sessions) && h in sessions && s.ring.None?
    ensures Stray(sessions - {h}, slots[Place(sessions[h]) := s]) == Stray(sessions, slots)
  {
    var k := Place(sessions[h]);
    assert Rings(slots[k := s]) == Rings(slots) - {k};
    PlacesAfterUnload(sessions, h);
  }

  lemma PlacesAfterUnload(sessions: map<UInt64, Session>, h: UInt64)
    requires Apart(sessions) && h in sessions
    ensures Places(sessions - {h}) == Places(sessions) - {Place(sessions[h])} && Place(sessions[h]) in Places(sessions)
    ensures Apart(sessions - {h})
  {
    var k, t := Place(sessions[h]), sessions - {h};
    forall p | p in Places(sessions) - {k} ensures p in Places(t) {
      var g :| g in sessions && Place(sessions[g]) == p;
      assert g in t && t[g] == sessions[g];
    }
    forall p | p in Places(t) ensures p in Places(sessions) {
      var g :| g in t && Place(t[g]) == p;
      assert g in sessions && t[g] == sessions[g];
    }
  }

  lemma UnloadOthersKeep(c: Config, sessions: map<UInt64, Session>, slots: map<Key, Slot>, h: UInt64, s: Slot)
    requires Housed(c, sessions, slots) && Apart(sessions) && h in sessions
    ensures var sessions1, slots1 := sessions - {h}, slots[Place(sessions[h]) := s];
            && Housed(c, sessions1, slots1) && Apart(sessions1)
            && OthersKeep(sessions, slots, sessions1, slots1, sessions[h].sock)
            && OthersGain(sessions, sessions1, sessions[h].sock)
  {
  }

  lemma DropSessionKept(c: Config, st: State, h: UInt64, s: Slot)
    requires Inv(c, st) && h in st.sessions && s.ring.None?
    ensures var next := st.(slots := st.slots[Place(st.sessions[h]) := s], sessions := st.sessions - {h});
            Kept(c, st, next, st.sessions[h].sock)
  {
    StrayAfterUnload(st.sessions, st.slots, h, s);
    UnloadOthersKeep(c, st.sessions, st.slots, h, s);
    assert Owned(st.connections, st.sessions - {h});
  }

  lemma UnloadPlaybackGood(c: Config, st: State, id: Int32, cmd: Command)
    requires Inv(c, st) && !st.fault && Live(st.connections, id) && cmd.UP?
    ensures var next := UnloadPlayback(c, st, id, cmd); Kept(c, st, next, id) && !next.fault
  {
    var next, h := UnloadPlayback(c, st, id, cmd), MakeHandle(id, cmd.serial);
    if h !in st.sessions {
      KeptSelf(c, st, next, id);
    } else {
      HandleInUse(st.connections, st.sessions, id, cmd.serial);
      var k := Place(st.sessions[h]);
      assert IsSlot(c, k) && SlotAt(st, k).ring.Some?;
      DropSessionKept(c, st, h, AfterUnload(SlotAt(st, k)));
      KeptApart(c, st, st.(slots := st.slots[k := AfterUnload(SlotAt(st, k))], sessions := st.sessions - {h}), next,
          id);
    }
  }

  // A session that keeps its place, and its slot that keeps a ring.
  lemma UpdateKept(c: Config, st: State, h: UInt64, s: Session, slot: Slot)
    requires Inv(c, st) && h in st.sessions && slot.ring.Some?
    requires s == st.sessions[h].(length := s.length, speed := s.speed)
    ensures Kept(c, st, st.(sessions := st.sessions[h := s], slots := st.slots[Place(s) := slot]), s.sock)
  {
    var slots := st.slots[Place(s) := slot];
    SameRings(st.slots, Place(s), slot);
    HousedByRings(c, st.sessions, st.slots, slots);
    SamePlaces(st.sessions, h, s);
    UpdatedSessions(c, st.connections, st.sessions, slots, h, s);
    UpdatedOthers(st.sessions, st.slots, h, s, slot);
    var next := st.(sessions := st.sessions[h := s], slots := slots);
    FollowsByParts(c, st, next);
    SessionsKept(c, st, next, s.sock);
  }

  lemma UpdatedInv(c: Config, st: State, h: UInt64, s: Session, slot: Slot)
    requires Inv(c, st) && h in st.sessions && slot.ring.Some?
    requires s == st.sessions[h].(length := s.length, speed := s.speed)
    ensures Inv(c, st.(sessions := st.sessions[h := s], slots := st.slots[Place(s) := slot]))
  {
    UpdateKept(c, st, h, s, slot);
  }

  lemma UpdatedSessions(c: Config, connections: map<Int32, Connection>, sessions: map<UInt64, Session>,
      slots: map<Key, Slot>,
                        h: UInt64, s: Session)
    requires Owned(connections, sessions) && Housed(c, sessions, slots) && Apart(sessions) && h in sessions
    requires s == sessions[h].(length := s.length, speed := s.speed)
    ensures Owned(connections, sessions[h := s]) && Housed(c, sessions[h := s], slots) && Apart(sessions[h := s])
  {
  }

  lemma UpdatedOthers(sessions: map<UInt64, Session>, slots: map<Key, Slot>, h: UInt64, s: Session, slot: Slot)
    requires Apart(sessions) && h in sessions
    requires s == sessions[h].(length := s.length, speed := s.speed)
    ensures OthersKeep(sessions, slots, sessions[h := s], slots[Place(s) := slot], s.sock)
    ensures OthersGain(sessions, sessions[h := s], s.sock)
  {
  }

  lemma SamePlaces(sessions: map<UInt64, Session>, h: UInt64, s: Session)
    requires h in sessions && Place(s) == Place(sessions[h])
    ensures Places(sessions[h := s]) == Places(sessions)
  {
    var t := sessions[h := s];
    forall g | g in sessions ensures Place(t[g]) == Place(sessions[g]) {
    }
    forall p | p in Places(sessions) ensures p in Places(t) {
      var g :| g in sessions && Place(sessions[g]) == p;
      assert g in t;
    }
    forall p | p in Places(t) ensures p in Places(sessions) {
      var g :| g in t && Place(t[g]) == p;
      assert g in sessions;
    }
  }

  // What a play command finds when its session exists.
  lemma SessionFound(c: Config, st: State, id: Int32, serial: UInt32)
    requires Inv(c, st) && MakeHandle(id, serial) in st.sessions
    ensures var s := st.sessions[MakeHandle(id, serial)];
            s.sock == id && s.serial == serial && IsSlot(c, Place(s)) && SlotAt(st, Place(s)).ring.Some?
  {
    HandleInUse(st.connections, st.sessions, id, serial);
  }

  // Play commands on a session change its length and speed, and its slot but not
  // whether it has a ring.
  ghost predicate Updates(st: State, next: State, h: UInt64, s: Session, slot: Slot) {
    && h in st.sessions && s == st.sessions[h].(length := s.length, speed := s.speed) && slot.ring.Some?
    && next == st.(sessions := st.sessions[h := s], slots := st.slots[Place(s) := slot], sent := next.sent)
  }

  lemma UpdatesKept(c: Config, st: State, next: State, h: UInt64, s: Session, slot: Slot)
    requires Inv(c, st) && Updates(st, next, h, s, slot)
    ensures Kept(c, st, next, s.sock)
  {
    UpdateKept(c, st, h, s, slot);
    KeptApart(c, st, st.(sessions := st.sessions[h := s], slots := st.slots[Place(s) := slot]), next, s.sock);
  }

  lemma SeekKeepsRing(f: Format, s: Slot, ms: nat)
    requires s.ring.Some?
    ensures Consistent(Step(f, s, Seek(ms)).stream) && Step(f, s, Seek(ms)).stream.ring.Some?
  {
  }

  predicate SeekFaults(c: Config, st: State, id: Int32, cmd: Command)
    requires cmd.PP?
  {
    var h := MakeHandle(id, cmd.serial);
    && h in st.sessions && st.sessions[h].card < |c.formats|
    && StepFaults(c.formats[st.sessions[h].card], SlotAt(st, Place(st.sessions[h])), Seek(cmd.ms))
  }

  lemma PlayPositionUpdates(c: Config, st: State, id: Int32, cmd: Command) returns (s: Session, slot: Slot)
    requires Inv(c, st) && id in st.connections && cmd.PP? && MakeHandle(id, cmd.serial) in st.sessions
    requires !SeekFaults(c, st, id, cmd)
    ensures Updates(st, PlayPosition(c, st, id, cmd), MakeHandle(id, cmd.serial), s, slot) && s.sock == id
  {
    SessionFound(c, st, id, cmd.serial);
    s := st.sessions[MakeHandle(id, cmd.serial)];
    SeekKeepsRing(c.formats[s.card], SlotAt(st, Place(s)), cmd.ms);
    slot := Step(c.formats[s.card], SlotAt(st, Place(s)), Seek(cmd.ms)).stream;
    SoughtUpdates(st, PlayPosition(c, st, id, cmd), MakeHandle(id, cmd.serial), slot);
  }

  lemma SoughtUpdates(st: State, next: State, h: UInt64, slot: Slot)
    requires h in st.sessions && slot.ring.Some?
    requires next == st.(slots := st.slots[Place(st.sessions[h]) := slot], sent := next.sent)
    ensures Updates(st, next, h, st.sessions[h], slot)
  {
    assert st.sessions[h := st.sessions[h]] == st.sessions;
  }

  lemma PlayPositionGood(c: Config, st: State, id: Int32, cmd: Command)
    requires Inv(c, st) && !st.fault && Live(st.connections, id) && cmd.PP?
    ensures var next := PlayPosition(c, st, id, cmd);
            Kept(c, st, next, id) && (next.fault <==> SeekFaults(c, st, id, cmd))
  {
    if SeekFaults(c, st, id, cmd) {
      KeptSelf(c, st, PlayPosition(c, st, id, cmd), id);
    } else if MakeHandle(id, cmd.serial) in st.sessions {
      var s, slot := PlayPositionUpdates(c, st, id, cmd);
      UpdatesKept(c, st, PlayPosition(c, st, id, cmd), MakeHandle(id, cmd.serial), s, slot);
    } else {
      KeptSelf(c, st, PlayPosition(c, st, id, cmd), id);
    }
  }

  lemma StartPlaybackUpdates(c: Config, st: State, id: Int32, cmd: Command) returns (s: Session, slot: Slot)
    requires Inv(c, st) && id in st.connections && cmd.PY? && MakeHandle(id, cmd.serial) in st.sessions
    ensures Updates(st, StartPlayback(c, st, id, cmd), MakeHandle(id, cmd.serial), s, slot) && s.sock == id
  {
    SessionFound(c, st, id, cmd.serial);
    var h := MakeHandle(id, cmd.serial);
    s := st.sessions[h].(length := cmd.length, speed := cmd.speed);
    slot := StartedUpdates(c, st, id, cmd, h, s);
  }

  lemma StartedUpdates(c: Config, st: State, id: Int32, cmd: Command, h: UInt64, s: Session) returns (slot: Slot)
    requires Inv(c, st) && id in st.connections && cmd.PY? && h in st.sessions
    requires s == st.sessions[h].(length := cmd.length, speed := cmd.speed)
    ensures Updates(st, PlayOrRefuse(st, id, h, Place(s), cmd), h, s, slot)
  {
    var k := Place(s);
    slot := SlotAt(st, k);
    if CanPlay(slot, cmd.speed) {
      slot := AfterPlay(slot, Signed(cmd.length));
      UpdatedInv(c, st, h, s, slot);
      PlayUpdateFollows(c, st.(sessions := st.sessions[h := s], slots := st.slots[k := slot]), k, true);
    } else {
      assert st.slots[k := slot] == st.slots;
    }
  }

  lemma StartPlaybackGood(c: Config, st: State, id: Int32, cmd: Command)
    requires Inv(c, st) && !st.fault && Live(st.connections, id) && cmd.PY?
    ensures var next := StartPlayback(c, st, id, cmd); Kept(c, st, next, id) && !next.fault
  {
    if MakeHandle(id, cmd.serial) in st.sessions {
      var s, slot := StartPlaybackUpdates(c, st, id, cmd);
      UpdatesKept(c, st, StartPlayback(c, st, id, cmd), MakeHandle(id, cmd.serial), s, slot);
    } else {
      KeptSelf(c, st, StartPlayback(c, st, id, cmd), id);
    }
  }

  lemma StopPlaybackUpdates(c: Config, st: State, id: Int32, cmd: Command) returns (s: Session, slot: Slot)
    requires Inv(c, st) && id in st.connections && cmd.SP? && MakeHandle(id, cmd.serial) in st.sessions
    ensures Updates(st, StopPlayback(c, st, id, cmd), MakeHandle(id, cmd.serial), s, slot) && s.sock == id
  {
    SessionFound(c, st, id, cmd.serial);
    s := st.sessions[MakeHandle(id, cmd.serial)];
    slot := StoppedUpdates(c, st, id, cmd, MakeHandle(id, cmd.serial));
  }

  lemma StoppedUpdates(c: Config, st: State, id: Int32, cmd: Command, h: UInt64) returns (slot: Slot)
    requires Inv(c, st) && id in st.connections && cmd.SP? && h in st.sessions
    ensures Updates(st, StopOrRefuse(st, id, Place(st.sessions[h]), cmd), h, st.sessions[h], slot)
  {
    var k := Place(st.sessions[h]);
    slot := SlotAt(st, k);
    if CanStop(slot) {
      slot := AfterStop(slot);
      SlotChangeKeeps(c, st, k, slot);
      PlayUpdateFollows(c, WithSlot(st, k, slot), k, false);
    } else {
      assert st.slots[k := slot] == st.slots;
    }
    SoughtUpdates(st, StopOrRefuse(st, id, k, cmd), h, slot);
  }

  lemma StopPlaybackGood(c: Config, st: State, id: Int32, cmd: Command)
    requires Inv(c, st) && !st.fault && Live(st.connections, id) && cmd.SP?
    ensures var next := StopPlayback(c, st, id, cmd); Kept(c, st, next, id) && !next.fault
  {
    if MakeHandle(id, cmd.serial) in st.sessions {
      var s, slot := StopPlaybackUpdates(c, st, id, cmd);
      UpdatesKept(c, st, StopPlayback(c, st, id, cmd), MakeHandle(id, cmd.serial), s, slot);
    } else {
      KeptSelf(c, st, StopPlayback(c, st, id, cmd), id);
    }
  }

  // ----- Record commands ---------------------------------------------------------------

  // A port is taken or released, or changes without either.
  lemma PortKept(c: Config, st: State, k: Key, lock: Lock, p: RecordPort, id: Int32)
    requires Inv(c, st) && Live(st.connections, id) && Passes(LockAt(st, k).owner, lock.owner, id)
    requires lock.owner != NOBODY <==> p.ring.Some?
    requires p.ring.Some? ==> IsPort(c, k)
    ensures Kept(c, st, st.(locks := st.locks[k := lock], ports := st.ports[k := p]), id)
  {
    PortLocked(c, st.connections, st.locks, st.ports, k, lock, p, id);
    PortsKept(c, st, st.locks[k := lock], st.ports[k := p], id);
  }

  lemma PortsKept(c: Config, st: State, locks: map<Key, Lock>, ports: map<Key, RecordPort>, id: Int32)
    requires Inv(c, st) && Locked(c, st.connections, locks, ports) && LocksPass(st.locks, locks, id)
    ensures Kept(c, st, st.(locks := locks, ports := ports), id)
  {
    OthersSelf(st.sessions, st.slots, id);
  }

  lemma PortLocked(c: Config, connections: map<Int32, Connection>, locks: map<Key, Lock>, ports: map<Key, RecordPort>,
                   k: Key, lock: Lock, p: RecordPort, id: Int32)
    requires Locked(c, connections, locks, ports) && Live(connections, id) && Passes(OwnerIn(locks, k), lock.owner, id)
    requires lock.owner != NOBODY <==> p.ring.Some?
    requires p.ring.Some? ==> IsPort(c, k)
    ensures Locked(c, connections, locks[k := lock], ports[k := p]) && LocksPass(locks, locks[k := lock], id)
  {
  }

  lemma OthersSelf(sessions: map<UInt64, Session>, slots: map<Key, Slot>, id: Int32)
    ensures OthersKeep(sessions, slots, sessions, slots, id) && OthersGain(sessions, sessions, id)
  {
  }

  lemma PortFound(c: Config, st: State, k: Key)
    requires Inv(c, st)
    ensures LockAt(st, k).owner != NOBODY <==> PortAt(st, k).ring.Some?
    ensures PortAt(st, k).ring.Some? ==> IsPort(c, k) && Live(st.connections, LockAt(st, k).owner)
  {
  }

  lemma LoadRecordingGood(c: Config, st: State, id: Int32, cmd: Command, disk: Disk)
    requires Inv(c, st) && !st.fault && Live(st.connections, id) && cmd.LR? && cmd.port < c.ports
    ensures var next := LoadRecording(c, st, id, cmd, disk); Kept(c, st, next, id) && !next.fault
  {
    var next, k := LoadRecording(c, st, id, cmd, disk), Key(cmd.card, cmd.port);
    var lock := LockAt(st, k);
    if cmd.card >= |c.formats| || lock.owner != NOBODY || !CanRecord(cmd, disk) {
      KeptSelf(c, st, next, id);
    } else {
      PortFound(c, st, k);
      var p := AfterLoadRecord(PortAt(st, k), cmd.channels);
      PortKept(c, st, k, lock.(owner := id), p, id);
      KeptApart(c, st, st.(locks := st.locks[k := lock.(owner := id)], ports := st.ports[k := p]), next, id);
    }
  }

  // Unloading a port that nobody owns is what goes wrong.
  lemma UnloadRecordingGood(c: Config, st: State, id: Int32, cmd: Command)
    requires Inv(c, st) && !st.fault && Live(st.connections, id) && cmd.UR?
    ensures var next := UnloadRecording(c, st, id, cmd);
            Kept(c, st, next, id) &&
                (next.fault <==> cmd.card < |c.formats| && LockAt(st, Key(cmd.card, cmd.stream)).owner == NOBODY)
  {
    var next, k := UnloadRecording(c, st, id, cmd), Key(cmd.card, cmd.stream);
    var lock, p := LockAt(st, k), PortAt(st, k);
    PortFound(c, st, k);
    if cmd.card < |c.formats| && lock.owner == id {
      PortKept(c, st, k, lock.(owner := NOBODY), AfterUnloadRecord(p), id);
      KeptApart(c, st, st.(locks := st.locks[k := lock.(owner := NOBODY)],
          ports := st.ports[k := AfterUnloadRecord(p)]), next, id);
    } else {
      KeptSelf(c, st, next, id);
    }
  }

  lemma StartRecordingGood(c: Config, st: State, id: Int32, cmd: Command)
    requires Inv(c, st) && !st.fault && Live(st.connections, id) && cmd.RD?
    ensures var next := StartRecording(c, st, id, cmd); Kept(c, st, next, id) && !next.fault
  {
    var next, k := StartRecording(c, st, id, cmd), Key(cmd.card, cmd.stream);
    var lock, p := LockAt(st, k), PortAt(st, k);
    PortFound(c, st, k);
    if cmd.card >= |c.formats| {
      KeptSelf(c, st, next, id);
    } else {
      var lock1 := lock.(length := Signed(cmd.length), threshold := cmd.threshold);
      if lock.owner != id {
        LockFieldsKept(c, st, k, lock1, id);
        KeptApart(c, st, st.(locks := st.locks[k := lock1]), next, id);
      } else {
        var st1 := st.(locks := st.locks[k := lock1], ports := st.ports[k := AfterRecord(p, Signed(cmd.length))]);
        PortKept(c, st, k, lock1, AfterRecord(p, Signed(cmd.length)), id);
        RecordUpdateFollows(c, st1, k, true);
        KeptApart(c, st, st1, next, id);
      }
    }
  }

  lemma LockFieldsKept(c: Config, st: State, k: Key, lock: Lock, id: Int32)
    requires Inv(c, st) && lock.owner == LockAt(st, k).owner
    ensures Kept(c, st, st.(locks := st.locks[k := lock]), id)
  {
    FieldsLocked(c, st.connections, st.locks, st.ports, k, lock, PortAt(st, k), id);
    PortsKept(c, st, st.locks[k := lock], st.ports, id);
  }

  lemma PortFieldsKept(c: Config, st: State, k: Key, p: RecordPort, id: Int32)
    requires Inv(c, st) && (p.ring.Some? <==> PortAt(st, k).ring.Some?)
    ensures Kept(c, st, st.(ports := st.ports[k := p]), id)
  {
    FieldsLocked(c, st.connections, st.locks, st.ports, k, LockAt(st, k), p, id);
    PortsKept(c, st, st.locks, st.ports[k := p], id);
  }

  lemma FieldsLocked(c: Config, connections: map<Int32, Connection>, locks: map<Key, Lock>, ports: map<Key, RecordPort>,
                     k: Key, lock: Lock, p: RecordPort, id: Int32)
    requires Locked(c, connections, locks, ports) && lock.owner == OwnerIn(locks, k)
    requires p.ring.Some? <==> k in ports && ports[k].ring.Some?
    ensures Locked(c, connections, locks[k := lock], ports) && LocksPass(locks, locks[k := lock], id)
    ensures Locked(c, connections, locks, ports[k := p]) && LocksPass(locks, locks, id)
  {
  }

  lemma HaltRecordingGood(c: Config, st: State, id: Int32, cmd: Command)
    requires Inv(c, st) && !st.fault && Live(st.connections, id) && cmd.SR?
    ensures var next := HaltRecording(c, st, id, cmd);
            Kept(c, st, next, id) && (next.fault <==> cmd.card < |c.formats| && cmd.stream >= c.ports)
  {
    var next, k := HaltRecording(c, st, id, cmd), Key(cmd.card, cmd.stream);
    if cmd.card < |c.formats| && cmd.stream < c.ports && PortAt(st, k).recording {
      var p := PortAt(st, k).(recording := false);
      PortFieldsKept(c, st, k, p, id);
      RecordUpdateFollows(c, st.(ports := st.ports[k := p]), k, false);
      KeptApart(c, st, st.(ports := st.ports[k := p]), next, id);
    } else {
      KeptSelf(c, st, next, id);
    }
  }
}
