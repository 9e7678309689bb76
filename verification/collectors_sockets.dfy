/** collectors/syscall_sweep.py and collectors/sockets.py. */
module SocketCollectors {
  import opened Text
  import opened Sorting
  import opened Snapshots
  import opened Findings
  import opened Strings
  import opened SocketsParser

  // ---------------------------------------------------------------------------------------------
  // The sweep

  /** An arbitrary SignalSource: the largest id tried, the ids that answered, and (Tgid, Name) of a
      readable status. */
  datatype SignalSource = SignalSource(pidMax: int, alive: seq<int>, status: int -> Option<(int, Option<Text>)>)

  /** An unreadable status falls back to the task's own id. */
  function SweptEntity(s: SignalSource, task: int): SweepEntity {
    match s.status(task)
    case None => SweepEntity(task, false, None)
    case Some((tgid, comm)) => SweepEntity(tgid, true, comm)
  }

  function SweepOf(s: SignalSource): Entities {
    Sweep(SortBy(s.alive, IntKey), map t | t in s.alive :: SweptEntity(s, t))
  }

  function SweepStats(s: SignalSource, sweepMs: int): map<Text, Json> {
    map[Lit("pid_max") := Int(s.pidMax), Lit("responded") := Int(|s.alive|), Lit("sweep_ms") := Int(sweepMs)]
  }

  method CollectSweep(s: SignalSource, sweepMs: int, durationMs: int) returns (o: Observation)
    ensures o.entities == SweepOf(s) && o.status == Ok && o.errors == [] && o.stats == SweepStats(s, sweepMs)
  {
    var entities: map<int, SweepEntity> := map[];
    for i := 0 to |s.alive|
      invariant entities == map t | t in s.alive[..i] :: SweptEntity(s, t)
    {
      entities := entities[s.alive[i] := SweptEntity(s, s.alive[i])];
    }
    assert s.alive[..|s.alive|] == s.alive;
    o := Observation(Sweep(SortBy(s.alive, IntKey), entities), Lit("1"), Lit("processes"), TrustMedium, Ok, durationMs,
                     SweepStats(s, sweepMs), [], None, None);
  }

  // ---------------------------------------------------------------------------------------------
  // The socket tables

  /** An arbitrary SocketSource: the tables that can be read, and the socket inodes each pid holds. */
  datatype SocketSource = SocketSource(table: Text -> Option<Text>, fds: int -> set<int>)

  function RichKinds(): seq<Text> {
    [Lit("tcp"), Lit("tcp6"), Lit("udp"), Lit("udp6")]
  }

  function KeyOfInode(inode: int): Text {
    Decimal(inode)
  }

  function TableEntity(r: NetRow): SocketEntity {
    SocketEntity(r.inode, r.kind, Some(r.state), Some(r.local), Some(r.remote), Some(r.uid), true, [])
  }

  /** Rows in order, a later row of the same inode replacing an earlier one. */
  function EntitiesOf(rows: seq<NetRow>): map<Text, SocketEntity> {
    if rows == [] then map[]
    else EntitiesOf(rows[..|rows| - 1])[KeyOfInode(rows[|rows| - 1].inode) := TableEntity(rows[|rows| - 1])]
  }

  lemma {:induction false} EntitiesOfConcat(a: seq<NetRow>, b: seq<NetRow>)
    ensures EntitiesOf(a + b) == EntitiesOf(a) + EntitiesOf(b)
  {
    if b == [] {
      assert a + b == a;
    } else {
      assert (a + b)[..|a + b| - 1] == a + b[..|b| - 1];
      EntitiesOfConcat(a, b[..|b| - 1]);
    }
  }

  /** The rows of all readable tables, in table order; None when one of them does not parse. */
  function AllRows(s: SocketSource, kinds: seq<Text>, ipv6: seq<Byte> -> Text): Option<seq<NetRow>> {
    if kinds == [] then Some([])
    else
      var n := |kinds| - 1;
      var before := AllRows(s, kinds[..n], ipv6);
      if s.table(kinds[n]).None? || before.None? then before
      else
        match TableRows(SplitLines(s.table(kinds[n]).value), kinds[n], ipv6)
        case None => None
        case Some(rows) => Some(before.value + rows)
  }

  lemma {:induction false} BadRowsStay(s: SocketSource, kinds: seq<Text>, k: nat, ipv6: seq<Byte> -> Text)
    requires k <= |kinds| && AllRows(s, kinds[..k], ipv6).None?
    ensures AllRows(s, kinds, ipv6).None?
    decreases |kinds|
  {
    if k == |kinds| {
      assert kinds[..k] == kinds;
    } else {
      assert kinds[..|kinds| - 1][..k] == kinds[..k];
      BadRowsStay(s, kinds[..|kinds| - 1], k, ipv6);
    }
  }

  // ---------------------------------------------------------------------------------------------
  // Ownership

  predicate HoldsKey(inodes: set<int>, key: Text) {
    exists inode :: inode in inodes && KeyOfInode(inode) == key
  }

  /** The walked pids holding an fd for a socket. */
  function Holders(s: SocketSource, pids: set<int>, key: Text): set<int> {
    set p | p in pids && HoldsKey(s.fds(p), key)
  }

  /** The owners recorded for a key; an absent key has none. */
  function OwnersAt(owners: map<Text, set<int>>, key: Text): set<int> {
    if key in owners then owners[key] else {}
  }

  function WithOwners(e: SocketEntity, owners: set<int>): SocketEntity {
    e.(ownerPids := SortedInts(owners))
  }

  function SocketsOf(s: SocketSource, pids: set<int>, rows: seq<NetRow>): Entities {
    var entities := EntitiesOf(rows);
    Sockets(SortedTexts(entities.Keys), map k | k in entities :: WithOwners(entities[k], Holders(s, pids, k)))
  }

  lemma {:induction false} TableEntitiesUnowned(rows: seq<NetRow>, k: Text)
    requires k in EntitiesOf(rows)
    ensures EntitiesOf(rows)[k].ownerPids == [] && EntitiesOf(rows)[k].inTable
  {
    if rows != [] && k != KeyOfInode(rows[|rows| - 1].inode) {
      TableEntitiesUnowned(rows[..|rows| - 1], k);
    }
  }

  predicate HasTable(s: SocketSource, kind: Text) {
    s.table(kind).Some?
  }

  function ReadableTables(s: SocketSource, kinds: seq<Text>): set<int> {
    set i | 0 <= i < |kinds| && HasTable(s, kinds[i])
  }

  /** How many of the tables could be read. */
  function TablesRead(s: SocketSource, kinds: seq<Text>): nat {
    |ReadableTables(s, kinds)|
  }

  lemma TablesReadStep(s: SocketSource, kinds: seq<Text>, i: nat)
    requires i < |kinds|
    ensures TablesRead(s, kinds[..i + 1]) == TablesRead(s, kinds[..i]) + if HasTable(s, kinds[i]) then 1 else 0
  {
    assert ReadableTables(s, kinds[..i + 1])
        == ReadableTables(s, kinds[..i]) + if HasTable(s, kinds[i]) then {i} else {};
  }

  function SocketStats(tables: nat, sockets: nat, walked: nat): map<Text, Json> {
    map[Lit("tables_read") := Int(tables), Lit("sockets") := Int(sockets), Lit("pids_walked") := Int(walked)]
  }

  lemma OwnersStep(owners: map<Text, set<int>>, key: Text, pid: int, k: Text)
    ensures OwnersAt(owners[key := OwnersAt(owners, key) + {pid}], k)
         == OwnersAt(owners, k) + if k == key then {pid} else {}
  {
  }

  class SocketCollector {
    const pids: set<int>

    constructor (ps: set<int>)
      ensures pids == ps
    {
      pids := ps;
    }

    method ReadTables(s: SocketSource, ipv6: seq<Byte> -> Text)
      returns (ok: bool, entities: map<Text, SocketEntity>, tables: nat)
      ensures ok <==> AllRows(s, RichKinds(), ipv6).Some?
      ensures ok ==> entities == EntitiesOf(AllRows(s, RichKinds(), ipv6).value)
      ensures ok ==> tables == TablesRead(s, RichKinds())
    {
      var kinds := RichKinds();
      entities, tables, ok := map[], 0, true;
      for i := 0 to |kinds|
        invariant AllRows(s, kinds[..i], ipv6).Some? && entities == EntitiesOf(AllRows(s, kinds[..i], ipv6).value)
        invariant ok && tables == TablesRead(s, kinds[..i])
      {
        TablesReadStep(s, kinds, i);
        assert kinds[..i + 1][..i] == kinds[..i];
        var text := s.table(kinds[i]);
        if text.Some? {
          tables := tables + 1;
          var rows := ParseNetTable(text.value, kinds[i], ipv6);
          if rows.None? {
            BadRowsStay(s, kinds, i + 1, ipv6);
            return false, map[], tables;
          }
          EntitiesOfConcat(AllRows(s, kinds[..i], ipv6).value, rows.value);
          entities := entities + EntitiesOf(rows.value);
        }
      }
      assert kinds[..|kinds|] == kinds;
    }

    /** The owners dictionary after walking the fds of one pid, in whatever order. */
    method WalkFds(inodes: set<int>, pid: int, known: set<Text>, owners: map<Text, set<int>>)
      returns (owners': map<Text, set<int>>)
      requires owners.Keys <= known
      ensures owners'.Keys <= known
      ensures forall k :: k in known ==>
                OwnersAt(owners', k) == OwnersAt(owners, k) + if HoldsKey(inodes, k) then {pid} else {}
    {
      owners' := owners;
      var left, done := inodes, {};
      while left != {}
        invariant left + done == inodes
        invariant owners'.Keys <= known
        invariant forall k :: k in known ==>
                    OwnersAt(owners', k) == OwnersAt(owners, k) + if HoldsKey(done, k) then {pid} else {}
        decreases left
      {
        HasLeast(left);
        var inode :| inode in left;
        var key := KeyOfInode(inode);
        ghost var was := owners';
        if key in known {
          owners' := owners'[key := OwnersAt(owners', key) + {pid}];
        }
        forall k | k in known
          ensures OwnersAt(owners', k) == OwnersAt(owners, k) + if HoldsKey(done + {inode}, k) then {pid} else {} {
          HoldsStep(done, inode, k);
          OwnersStep(was, key, pid, k);
        }
        left, done := left - {inode}, done + {inode};
      }
      assert done == inodes;
    }

    /** Set iteration order does not matter: each known socket gets exactly its holders. */
    method WalkPids(s: SocketSource, known: set<Text>) returns (owners: map<Text, set<int>>)
      ensures owners.Keys <= known
      ensures forall k :: k in known ==> OwnersAt(owners, k) == Holders(s, pids, k)
    {
      owners := map[];
      var left, done := pids, {};
      while left != {}
        invariant left + done == pids
        invariant owners.Keys <= known
        invariant forall k :: k in known ==> OwnersAt(owners, k) == Holders(s, done, k)
        decreases left
      {
        HasLeast(left);
        var pid :| pid in left;
        forall k ensures Holders(s, done + {pid}, k)
                      == Holders(s, done, k) + if HoldsKey(s.fds(pid), k) then {pid} else {} {
          HoldersStep(s, done, pid, k);
        }
        left, done := left - {pid}, done + {pid};
        owners := WalkFds(s.fds(pid), pid, known, owners);
      }
      assert done == pids;
    }

    method Collect(s: SocketSource, ipv6: seq<Byte> -> Text, durationMs: int) returns (o: Option<Observation>)
      ensures o.Some? <==> AllRows(s, RichKinds(), ipv6).Some?
      ensures o.Some? ==> o.value.entities == SocketsOf(s, pids, AllRows(s, RichKinds(), ipv6).value)
      ensures o.Some? ==> o.value.status == Ok && o.value.errors == []
      ensures o.Some? ==> o.value.stats == SocketStats(TablesRead(s, RichKinds()), |o.value.entities.sockets|, |pids|)
    {
      var ok, entities, tables := ReadTables(s, ipv6);
      if !ok {
        return None;
      }
      var owners := WalkPids(s, entities.Keys);
      var owned := Rewrite(entities, owners);
      assert forall k :: k in entities ==> entities[k].ownerPids == [] by {
        forall k | k in entities ensures entities[k].ownerPids == [] {
          TableEntitiesUnowned(AllRows(s, RichKinds(), ipv6).value, k);
        }
      }
      RewriteIs(entities, owners, s, pids);
      o := Some(SocketObservation(Sockets(SortedTexts(entities.Keys), owned), tables, |pids|, durationMs));
    }
  }

  function SocketObservation(entities: Entities, tables: nat, walked: nat, durationMs: int): Observation
    requires entities.Sockets?
  {
    Observation(entities, Lit("1"), Lit("sockets"), TrustLow, Ok, durationMs,
                SocketStats(tables, |entities.sockets|, walked), [], None, None)
  }

  /** The entities with an owner rewritten with their owners, the others left as they are. */
  function Rewrite(entities: map<Text, SocketEntity>, owners: map<Text, set<int>>): map<Text, SocketEntity> {
    map k | k in entities :: if k in owners then WithOwners(entities[k], owners[k]) else entities[k]
  }

  lemma RewriteIs(entities: map<Text, SocketEntity>, owners: map<Text, set<int>>, s: SocketSource, pids: set<int>)
    requires forall k :: k in entities ==> OwnersAt(owners, k) == Holders(s, pids, k)
    requires forall k :: k in entities ==> entities[k].ownerPids == []
    ensures Rewrite(entities, owners) == map k | k in entities :: WithOwners(entities[k], Holders(s, pids, k))
  {
    SortedNone();
  }

  lemma HoldsStep(inodes: set<int>, inode: int, key: Text)
    ensures HoldsKey(inodes + {inode}, key) <==> HoldsKey(inodes, key) || KeyOfInode(inode) == key
  {
    if HoldsKey(inodes, key) {
      var i :| i in inodes && KeyOfInode(i) == key;
      assert i in inodes + {inode};
    }
    assert inode in inodes + {inode};
  }

  lemma SortedNone()
    ensures SortedInts({}) == []
  {
    HasMember(SortedInts({}));
  }

  lemma HoldersStep(s: SocketSource, done: set<int>, pid: int, key: Text)
    ensures Holders(s, done + {pid}, key) == Holders(s, done, key) + if HoldsKey(s.fds(pid), key) then {pid} else {}
  {
  }

  /** Each in-table socket's owner_pids is exactly the sorted set of walked pids that hold it. */
  lemma OwnersExact(s: SocketSource, pids: set<int>, rows: seq<NetRow>, k: Text, p: int)
    requires k in EntitiesOf(rows)
    ensures var e := SocketsOf(s, pids, rows).sockets[k];
      && e.inTable
      && StrictlyAscending(e.ownerPids, IntKey)
      && (p in e.ownerPids <==> p in pids && HoldsKey(s.fds(p), k))
  {
    TableEntitiesUnowned(rows, k);
  }
}
