/**
 * Deliveries that borrow database connections, in any assignment: who can be inside one key's section together,
 * given that the named lock is re-entrant for its connection.
 */
module SharedConnections {
  import opened NamedLock

  /** The database's locks, and for each delivery inside a section the name it locked. */
  datatype Sections = Sections(locks: Locks, inside: map<nat, string>)

  datatype Event = Enter(d: nat, name: string) | Leave(d: nat)

  type Assignment = nat -> nat

  /** A delivery enters when its connection is granted the lock, and releases it on the same connection. */
  function Happen(s: Sections, e: Event, conn: Assignment): Sections {
    match e
    case Enter(d, name) =>
      if d !in s.inside && Grants(s.locks, name, conn(d)) then
        Sections(Apply(s.locks, Get(name, conn(d))), s.inside[d := name])
      else s
    case Leave(d) =>
      if d in s.inside then Sections(Apply(s.locks, Free(s.inside[d], conn(d))), s.inside - {d}) else s
  }

  function After(events: seq<Event>, conn: Assignment): Sections {
    if events == [] then Sections(map[], map[])
    else Happen(After(events[..|events| - 1], conn), events[|events| - 1], conn)
  }

  function Insiders(s: Sections, name: string): set<nat> {
    set d | d in s.inside && s.inside[d] == name
  }

  /** A name is held once for every delivery inside it, all on the connection that holds it. */
  ghost predicate NameOk(s: Sections, name: string, conn: Assignment) {
    if name in s.locks then
      && s.locks[name].depth == |Insiders(s, name)| >= 1
      && forall d | d in Insiders(s, name) :: conn(d) == s.locks[name].connection
    else Insiders(s, name) == {}
  }

  ghost predicate SectionsOk(s: Sections, conn: Assignment) {
    forall name :: NameOk(s, name, conn)
  }

  lemma EnterKeeps(s: Sections, d: nat, name: string, conn: Assignment, other: string)
    requires SectionsOk(s, conn) && d !in s.inside && Grants(s.locks, name, conn(d))
    ensures NameOk(Happen(s, Enter(d, name), conn), other, conn)
  {
    var s' := Happen(s, Enter(d, name), conn);
    assert NameOk(s, other, conn);
    assert d !in Insiders(s, other);
    if other == name {
      assert Insiders(s', other) == Insiders(s, other) + {d};
    } else {
      assert Insiders(s', other) == Insiders(s, other);
    }
  }

  lemma LeaveKeeps(s: Sections, d: nat, conn: Assignment, other: string)
    requires SectionsOk(s, conn) && d in s.inside
    ensures NameOk(Happen(s, Leave(d), conn), other, conn)
  {
    var s' := Happen(s, Leave(d), conn);
    var name := s.inside[d];
    assert NameOk(s, other, conn) && NameOk(s, name, conn);
    assert d in Insiders(s, name);
    assert Insiders(s', other) == if other == name then Insiders(s, other) - {d} else Insiders(s, other);
  }

  lemma {:induction false} AlwaysOk(events: seq<Event>, conn: Assignment)
    ensures SectionsOk(After(events, conn), conn)
  {
    if events != [] {
      var s, e := After(events[..|events| - 1], conn), events[|events| - 1];
      AlwaysOk(events[..|events| - 1], conn);
      forall name
        ensures NameOk(Happen(s, e, conn), name, conn)
      {
        assert NameOk(s, name, conn);
        match e
        case Enter(d, n) => if d !in s.inside && Grants(s.locks, n, conn(d)) { EnterKeeps(s, d, n, conn, name); }
        case Leave(d) => if d in s.inside { LeaveKeeps(s, d, conn, name); }
      }
    }
  }

  /** After this history both deliveries are inside the section of `name`. */
  ghost predicate Together(events: seq<Event>, conn: Assignment, d: nat, e: nat, name: string) {
    var s := After(events, conn);
    d in s.inside && e in s.inside && s.inside[d] == name && s.inside[e] == name
  }

  /** After any history, two deliveries inside one key's section use the same connection. */
  lemma InsideOnlyIfShared(events: seq<Event>, conn: Assignment, d: nat, e: nat, name: string)
    requires Together(events, conn, d, e, name)
    ensures conn(d) == conn(e)
  {
    var s := After(events, conn);
    AlwaysOk(events, conn);
    assert NameOk(s, name, conn);
    assert d in Insiders(s, name) && e in Insiders(s, name);
  }

  /** Two deliveries on one connection can both be inside. */
  lemma SharedGoInTogether(conn: Assignment, d: nat, e: nat, name: string) returns (events: seq<Event>)
    requires d != e && conn(d) == conn(e)
    ensures Together(events, conn, d, e, name)
  {
    events := [Enter(d, name), Enter(e, name)];
    assert events[..1] == [Enter(d, name)] && events[..1][..0] == [];
    assert After(events[..1], conn) == Sections(map[name := Held(conn(d), 1)], map[d := name]);
  }

  /** Two deliveries can be inside one section at once, in some history, exactly when they share a connection. */
  lemma TogetherExactlyIfShared(conn: Assignment, d: nat, e: nat, name: string)
    requires d != e
    ensures (exists events :: Together(events, conn, d, e, name)) <==> conn(d) == conn(e)
  {
    if conn(d) == conn(e) {
      var events := SharedGoInTogether(conn, d, e, name);
    } else {
      forall events
        ensures !Together(events, conn, d, e, name)
      {
        if Together(events, conn, d, e, name) {
          InsideOnlyIfShared(events, conn, d, e, name);
        }
      }
    }
  }
}
