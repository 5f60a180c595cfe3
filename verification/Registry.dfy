/** The broker's tunnel registry: a rotating port allocator over two tables, and the
    tunnels that hold the marked ports. */
module Registry {

  datatype Proto = Tcp | Udp
  const ID_LEN: nat := 24

  datatype Tunnel = Tunnel(proto: Proto, closed: bool, port: nat)

  /** A closed TCP tunnel has no public listener. */
  predicate NeedsPort(proto: Proto, closed: bool) {
    !(closed && proto.Tcp?)
  }

  /** How many ports are marked. */
  function Marks(s: seq<bool>): (n: nat)
    ensures n <= |s|
    ensures n == |s| <==> forall i :: 0 <= i < |s| ==> s[i]
  {
    if s == [] then 0 else Marks(s[..|s| - 1]) + if s[|s| - 1] then 1 else 0
  }

  lemma {:induction false} MarksSet(s: seq<bool>, i: nat, b: bool)
    requires i < |s| && s[i] != b
    ensures Marks(s[i := b]) == Marks(s) + if b then 1 else -1
    decreases |s|
  {
    var n := |s| - 1;
    if i < n {
      assert s[i := b][..n] == s[..n][i := b];
      MarksSet(s[..n], i, b);
    } else {
      assert s[i := b][..n] == s[..n];
    }
  }

  /** The `i`-th index of a scan that starts at `cursor`. */
  function Slot(cursor: nat, i: nat, n: nat): (k: nat)
    requires n > 0
    ensures k < n
  {
    (cursor + i) % n
  }

  /** The rotating scan visits every index. */
  lemma ScanCovers(n: nat, cursor: nat, k: nat) returns (i: nat)
    requires cursor < n && k < n
    ensures i < n && Slot(cursor, i, n) == k
  {
    i := if cursor <= k then k - cursor else k + n - cursor;
    if cursor > k { Wraps(n, k); }
  }

  lemma SlotZero(cursor: nat, n: nat)
    requires cursor < n
    ensures Slot(cursor, 0, n) == cursor
  {
  }

  lemma Wraps(n: nat, k: nat)
    requires k < n
    ensures (n + k) % n == k
  {
  }

  /** A `uint16_t` counter. */
  function Word(x: int): (w: nat)
    ensures w < 0x1_0000
    ensures 0 <= x < 0x1_0000 ==> w == x
  {
    x % 0x1_0000
  }

  lemma WordSteps(x: int)
    ensures Word(Word(x) + 1) == Word(x + 1) && Word(Word(x) - 1) == Word(x - 1)
    ensures x >= 0 ==> Word(x) <= x
  {
  }

  /** The tunnels that hold a port. */
  ghost function Holders(tunnels: map<string, Tunnel>): (ids: set<string>)
    ensures ids <= tunnels.Keys
  {
    set id | id in tunnels && NeedsPort(tunnels[id].proto, tunnels[id].closed)
  }

  /** `port` belongs to a live tunnel of that protocol. */
  ghost predicate Held(tunnels: map<string, Tunnel>, p: Proto, port: nat) {
    exists id :: id in Holders(tunnels) && tunnels[id].proto == p && tunnels[id].port == port
  }

  /** The marked ports are exactly the held ones, and no two tunnels share one. */
  ghost predicate Exact(tunnels: map<string, Tunnel>, p: Proto, table: seq<bool>, start: nat) {
    && (forall i :: 0 <= i < |table| ==> (table[i] <==> Held(tunnels, p, start + i)))
    && (forall id :: id in Holders(tunnels) && tunnels[id].proto == p ==>
          start <= tunnels[id].port < start + |table|)
  }

  ghost predicate Distinct(tunnels: map<string, Tunnel>) {
    forall a, b ::
      (a in Holders(tunnels) && b in Holders(tunnels) && tunnels[a].proto == tunnels[b].proto
       && tunnels[a].port == tunnels[b].port) ==> a == b
  }

  lemma HoldersAdd(m: map<string, Tunnel>, id: string, t: Tunnel)
    requires id !in m
    ensures Holders(m[id := t]) == Holders(m) + if NeedsPort(t.proto, t.closed) then {id} else {}
  {
  }

  /** A new tunnel on a free port, or on none. */
  lemma Added(m: map<string, Tunnel>, id: string, t: Tunnel, p: Proto, table: seq<bool>, start: nat)
    requires id !in m && Exact(m, p, table, start)
    requires NeedsPort(t.proto, t.closed) && t.proto == p ==> start <= t.port < start + |table| && !table[t.port - start]
    ensures Exact(m[id := t], p,
                  if NeedsPort(t.proto, t.closed) && t.proto == p then table[t.port - start := true] else table, start)
  {
    HoldersAdd(m, id, t);
    var m', mine := m[id := t], NeedsPort(t.proto, t.closed) && t.proto == p;
    var table' := if mine then table[t.port - start := true] else table;
    forall i | 0 <= i < |table| ensures table'[i] <==> Held(m', p, start + i) {
      if Held(m, p, start + i) {
        var a :| a in Holders(m) && m[a].proto == p && m[a].port == start + i;
        assert a in Holders(m') && m'[a].proto == p && m'[a].port == start + i;
      }
      if mine && start + i == t.port {
        assert id in Holders(m') && m'[id].proto == p && m'[id].port == start + i;
      }
    }
  }

  lemma AddedDistinct(m: map<string, Tunnel>, id: string, t: Tunnel, table: seq<bool>, start: nat)
    requires id !in m && Exact(m, t.proto, table, start) && Distinct(m)
    requires NeedsPort(t.proto, t.closed) ==> start <= t.port < start + |table| && !table[t.port - start]
    ensures Distinct(m[id := t])
  {
    HoldersAdd(m, id, t);
    assert NeedsPort(t.proto, t.closed) ==> !Held(m, t.proto, start + (t.port - start));
  }

  lemma HoldersRemove(m: map<string, Tunnel>, id: string)
    requires id in m
    ensures Holders(m - {id}) == Holders(m) - {id}
  {
  }

  lemma HoldsPort(m: map<string, Tunnel>, id: string)
    requires id in m && NeedsPort(m[id].proto, m[id].closed)
    ensures id in Holders(m)
  {
  }

  /** A tunnel goes, and its port is free again. */
  lemma Removed(m: map<string, Tunnel>, id: string, p: Proto, table: seq<bool>, start: nat)
    requires id in m && Exact(m, p, table, start) && Distinct(m)
    ensures var t := m[id]; var mine := NeedsPort(t.proto, t.closed) && t.proto == p;
      && (mine ==> start <= t.port < start + |table| && table[t.port - start])
      && Exact(m - {id}, p, if mine then table[t.port - start := false] else table, start)
      && Distinct(m - {id})
  {
    HoldersRemove(m, id);
    hide Holders;
    var t, m' := m[id], m - {id};
    var mine := NeedsPort(t.proto, t.closed) && t.proto == p;
    if mine { assert id in Holders(m) by { HoldsPort(m, id); } assert Held(m, p, start + (t.port - start)); }
    var table' := if mine then table[t.port - start := false] else table;
    forall i | 0 <= i < |table| ensures table'[i] <==> Held(m', p, start + i) {
      HeldWithout(m, id, p, start + i);
    }
  }

  /** A port is still held without `id` exactly if another tunnel holds it. */
  lemma HeldWithout(m: map<string, Tunnel>, id: string, p: Proto, port: nat)
    requires id in m && Distinct(m)
    ensures var t := m[id];
      Held(m - {id}, p, port) <==> Held(m, p, port) && !(NeedsPort(t.proto, t.closed) && t.proto == p && t.port == port)
  {
    HoldersRemove(m, id);
    var m' := m - {id};
    if Held(m, p, port) {
      var a :| a in Holders(m) && m[a].proto == p && m[a].port == port;
      if a != id { assert a in Holders(m') && m'[a].proto == p && m'[a].port == port; }
    }
    if Held(m', p, port) {
      var a :| a in Holders(m') && m'[a].proto == p && m'[a].port == port;
      assert a in Holders(m) && m[a].proto == p && m[a].port == port;
    }
  }

  /** The books balance: per protocol the marked ports are exactly the public ports of
      live tunnels that need one, no two tunnels share a port, and their number is the
      number of marks. */
  ghost predicate Books(m: map<string, Tunnel>, tcp: seq<bool>, udp: seq<bool>, start: nat) {
    && Exact(m, Tcp, tcp, start) && Exact(m, Udp, udp, start) && Distinct(m)
    && Marks(tcp) + Marks(udp) == |Holders(m)|
    && (forall id :: id in m && !NeedsPort(m[id].proto, m[id].closed) ==> m[id].port == 0)
  }

  /** The tables after port `port` of protocol `p` was set to `b`. */
  function Put(p: Proto, q: Proto, table: seq<bool>, i: nat, b: bool): seq<bool>
    requires p == q ==> i < |table|
  {
    if p == q then table[i := b] else table
  }

  lemma MarksNone(s: seq<bool>)
    requires forall i :: 0 <= i < |s| ==> !s[i]
    ensures Marks(s) == 0
  {
  }

  lemma BooksNew(tcp: seq<bool>, udp: seq<bool>, start: nat)
    requires forall i :: 0 <= i < |tcp| ==> !tcp[i]
    requires forall i :: 0 <= i < |udp| ==> !udp[i]
    ensures Books(map[], tcp, udp, start) && Marks(tcp) == Marks(udp) == 0
  {
    MarksNone(tcp);
    MarksNone(udp);
  }

  lemma BooksAdd(m: map<string, Tunnel>, tcp: seq<bool>, udp: seq<bool>, start: nat, id: string, t: Tunnel)
    requires Books(m, tcp, udp, start) && id !in m && NeedsPort(t.proto, t.closed)
    requires var table := if t.proto.Tcp? then tcp else udp;
      start <= t.port < start + |table| && !table[t.port - start]
    ensures Books(m[id := t], Put(t.proto, Tcp, tcp, t.port - start, true), Put(t.proto, Udp, udp, t.port - start, true), start)
  {
    hide Exact, Distinct, Holders;
    var table := if t.proto.Tcp? then tcp else udp;
    AddedDistinct(m, id, t, table, start);
    Added(m, id, t, Tcp, tcp, start);
    Added(m, id, t, Udp, udp, start);
    HoldersAdd(m, id, t);
    MarksSet(table, t.port - start, true);
  }

  lemma BooksAddClosed(m: map<string, Tunnel>, tcp: seq<bool>, udp: seq<bool>, start: nat, id: string, t: Tunnel)
    requires Books(m, tcp, udp, start) && id !in m && !NeedsPort(t.proto, t.closed) && t.port == 0
    ensures Books(m[id := t], tcp, udp, start)
  {
    hide Exact, Distinct, Holders;
    AddedDistinct(m, id, t, tcp, start);
    Added(m, id, t, Tcp, tcp, start);
    Added(m, id, t, Udp, udp, start);
    HoldersAdd(m, id, t);
  }

  lemma BooksRemove(m: map<string, Tunnel>, tcp: seq<bool>, udp: seq<bool>, start: nat, id: string)
    requires Books(m, tcp, udp, start) && id in m
    ensures var t := m[id];
      if NeedsPort(t.proto, t.closed) then
        var table := if t.proto.Tcp? then tcp else udp;
        && start <= t.port < start + |table| && table[t.port - start]
        && Books(m - {id}, Put(t.proto, Tcp, tcp, t.port - start, false), Put(t.proto, Udp, udp, t.port - start, false), start)
      else t.port == 0 && Books(m - {id}, tcp, udp, start)
  {
    hide Exact, Distinct;
    var t := m[id];
    Removed(m, id, Tcp, tcp, start);
    Removed(m, id, Udp, udp, start);
    HoldersRemove(m, id);
    if NeedsPort(t.proto, t.closed) {
      MarksSet(if t.proto.Tcp? then tcp else udp, t.port - start, false);
    }
  }

  class Registry {
    const start: nat
    const n: nat             // public_port_end - public_port_start + 1
    const maxTunnels: nat
    const tcp: array<bool>
    const udp: array<bool>
    var used: nat            // ports_used, a uint16_t
    var cursor: nat
    var tunnels: map<string, Tunnel>
    var count: nat

    ghost predicate Shape()
      reads this
    {
      0 < n && start + n <= 0x1_0000 && tcp.Length == udp.Length == n && tcp != udp && cursor < n
    }

    function Table(p: Proto): array<bool>
    {
      if p.Tcp? then tcp else udp
    }

    ghost function Total(): nat
      reads this, tcp, udp
    {
      Marks(tcp[..]) + Marks(udp[..])
    }

    ghost predicate Valid()
      reads this, tcp, udp
    {
      && Shape()
      && used == Word(Total())
      && count == |tunnels|
      && (start > 0 ==> Books(tunnels, tcp[..], udp[..], start))
    }

    constructor (first: nat, last: nat, maxTunnels: nat)
      requires first <= last < 0x1_0000
      ensures Valid() && fresh(tcp) && fresh(udp) && start == first && n == last - first + 1
      ensures used == cursor == count == 0 && tunnels == map[] && this.maxTunnels == maxTunnels
      ensures forall i :: 0 <= i < n ==> !tcp[i] && !udp[i]
    {
      start, n, this.maxTunnels := first, last - first + 1, maxTunnels;
      tcp := new bool[last - first + 1](_ => false);
      udp := new bool[last - first + 1](_ => false);
      used, cursor, count, tunnels := 0, 0, 0, map[];
      new;
      BooksNew(tcp[..], udp[..], start);
    }

    /** `ports_used` counts the tunnels that hold a port exactly while they are fewer
        than 2^16, which a range of at most 32767 ports guarantees. */
    lemma UsedIsTotal()
      requires Valid() && start > 0
      ensures used == |Holders(tunnels)| <==> |Holders(tunnels)| < 0x1_0000
      ensures n <= 32767 ==> used == |Holders(tunnels)|
    {
      hide Exact, Distinct;
    }

    /** Marks one port. */
    method Mark(p: Proto, idx: nat)
      requires Shape() && idx < n && !Table(p)[idx] && used == Word(Total())
      modifies this`used, Table(p)
      ensures Table(p)[..] == old(Table(p)[..])[idx := true]
      ensures Total() == old(Total()) + 1 && used == Word(Total())
    {
      MarksSet(Table(p)[..], idx, true);
      ghost var was := Table(p)[..];
      Table(p)[idx] := true;
      assert Table(p)[..] == was[idx := true];
      WordSteps(old(Total()));
      used := Word(used + 1);
    }

    /** Every port from the cursor up to `k`, around the end of the table, is marked. */
    ghost predicate FirstFree(p: Proto, k: int)
      requires Shape()
      reads this, Table(p)
    {
      exists i :: 0 <= i < n && k == Slot(cursor, i, n) && forall j :: 0 <= j < i ==> Table(p)[Slot(cursor, j, n)]
    }

    /** The first free port from the cursor on. */
    method Scan(p: Proto) returns (k: int)
      requires Shape()
      ensures -1 <= k < n && (k >= 0 ==> !Table(p)[k])
      ensures k == -1 ==> forall i :: 0 <= i < n ==> Table(p)[i]
      ensures k >= 0 ==> FirstFree(p, k)
      ensures !Table(p)[cursor] ==> k == cursor
    {
      SlotZero(cursor, n);
      hide Slot;
      var i := 0;
      while i < n
        invariant i <= n && forall j :: 0 <= j < i ==> Table(p)[Slot(cursor, j, n)]
      {
        k := Slot(cursor, i, n);
        if !Table(p)[k] { return; }
        i := i + 1;
      }
      forall k | 0 <= k < n ensures Table(p)[k] {
        var j := ScanCovers(n, cursor, k);
      }
      k := -1;
    }

    lemma AllMarked(p: Proto)
      requires Shape() && used == Word(Total()) && used >= 2 * n
      ensures forall i :: 0 <= i < n ==> Table(p)[i]
    {
      hide Word;
      WordSteps(Total());
      assert forall i :: 0 <= i < n ==> Table(p)[..][i];
    }

    /** `tm_port_alloc`: the preferred port if it is free, else the next free one
        from the cursor on. `idx` is the port it marked, or -1. */
    method Alloc(p: Proto, prefer: nat) returns (port: nat, ghost idx: int)
      requires Shape() && used == Word(Total())
      modifies this`used, this`cursor, Table(p)
      ensures Shape() && used == Word(Total())
      ensures -1 <= idx < n && (idx == -1 <==> forall i :: 0 <= i < n ==> old(Table(p)[i]))
      ensures idx == -1 ==> port == 0 && Table(p)[..] == old(Table(p)[..]) && Total() == old(Total())
      ensures idx >= 0 ==> !old(Table(p)[idx]) && port == start + idx && Total() == old(Total()) + 1
                           && Table(p)[..] == old(Table(p)[..])[idx := true]
      ensures prefer != 0 && start <= prefer < start + n && !old(Table(p)[prefer - start]) ==> port == prefer
      ensures prefer == 0 && !old(Table(p)[cursor]) ==> idx == old(cursor)
      ensures idx >= 0 ==> port == prefer || (old(FirstFree(p, idx)) && cursor == (idx + 1) % n)
    {
      hide Word, Marks;
      if used >= 2 * n {
        AllMarked(p);
        return 0, -1;
      }
      if prefer != 0 && start <= prefer < start + n && !Table(p)[prefer - start] {
        Mark(p, prefer - start);
        return prefer, prefer - start;
      }
      var k := Scan(p);
      if k == -1 { return 0, -1; }
      Mark(p, k);
      cursor := (k + 1) % n;
      return start + k, k;
    }

    /** `tm_port_free` */
    method Free(p: Proto, port: nat)
      requires Shape() && used == Word(Total())
      modifies this`used, Table(p)
      ensures used == Word(Total())
      ensures if start <= port < start + n && old(Table(p)[port - start])
              then Table(p)[..] == old(Table(p)[..])[port - start := false] && Total() == old(Total()) - 1
              else Table(p)[..] == old(Table(p)[..]) && Total() == old(Total())
    {
      if port < start || port >= start + n { return; }
      hide Word, Marks;
      ghost var was := Table(p)[..];
      if Table(p)[port - start] {
        MarksSet(was, port - start, false);
        WordSteps(Total());
        used := Word(used - 1);
      }
      Table(p)[port - start] := false;
      assert Table(p)[..] == was[port - start := false];
    }

    /** Some port of the protocol is free. */
    ghost predicate HasFree(p: Proto)
      requires Shape()
      reads this, Table(p)
    {
      exists i :: 0 <= i < n && !Table(p)[i]
    }

    /** The conditions of `tm_tunnel_create` that are not about ports. */
    predicate Admits(id: string, accepts: bool)
      reads this
    {
      accepts && |tunnels| < maxTunnels && id !in tunnels && |id| <= ID_LEN
    }

    /** The next port the scan would take is port 0. */
    ghost predicate ZeroNext(p: Proto, prefer: nat)
      requires Shape()
      reads this, Table(p)
    {
      start == 0 && cursor == 0 && prefer == 0 && !Table(p)[0]
    }

    /** `tm_tunnel_create`; the caller's `accepts` is the check for shutdown. */
    method Create(id: string, proto: Proto, closed: bool, prefer: nat, accepts: bool) returns (ok: bool)
      requires Valid()
      modifies this, tcp, udp
      ensures Valid()
      ensures start > 0 ==>
        (ok <==> old(Admits(id, accepts)) && (NeedsPort(proto, closed) ==> old(HasFree(proto))))
      ensures !ok ==> tunnels == old(tunnels)
      ensures old(Admits(id, accepts)) && old(ZeroNext(proto, prefer)) && NeedsPort(proto, closed) ==> !ok && Table(proto)[0]
      ensures ok ==> exists port: nat :: tunnels == old(tunnels)[id := Tunnel(proto, closed, port)]
    {
      hide Books, Marks, Word;
      if !accepts || count >= maxTunnels || id in tunnels || |id| > ID_LEN { return false; }
      var port := 0;
      if NeedsPort(proto, closed) {
        ghost var idx;
        port, idx := Alloc(proto, prefer);
        if port == 0 { return false; }
        if start > 0 { BooksAdd(tunnels, old(tcp[..]), old(udp[..]), start, id, Tunnel(proto, closed, port)); }
      } else if start > 0 {
        BooksAddClosed(tunnels, tcp[..], udp[..], start, id, Tunnel(proto, closed, port));
      }
      tunnels, count := tunnels[id := Tunnel(proto, closed, port)], count + 1;
      return true;
    }

    /** `tm_tunnel_delete`, as far as the registry goes. */
    method Delete(id: string) returns (ok: bool)
      requires Valid()
      modifies this, tcp, udp
      ensures Valid()
      ensures ok <==> id in old(tunnels)
      ensures tunnels == old(tunnels) - {id}
    {
      hide Books, Marks, Word;
      if id !in tunnels { return false; }
      var t := tunnels[id];
      if start > 0 { BooksRemove(tunnels, tcp[..], udp[..], start, id); }
      Free(t.proto, t.port);
      tunnels, count := tunnels - {id}, count - 1;
      return true;
    }
  }

  /** Why the first port must not be 0: port 0 means failure, so a range that starts
      there loses its first port to the first request, although the tunnel is
      refused. (With any other first port `Create` fails only when no port is free,
      and the books balance: `Registry.Valid`.) */
  method ZeroIsLost(last: nat) returns (r: Registry, ok: bool)
    requires last < 0x1_0000
    ensures fresh(r) && !ok && r.tunnels == map[] && r.Shape() && r.tcp[0]
  {
    r := new Registry(0, last, 1);
    ok := r.Create("t", Tcp, false, 0, true);
  }
}
