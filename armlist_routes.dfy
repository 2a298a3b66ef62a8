/** The three armlist stores behind the editor: squads, machines and
    factions. Each keeps one JSON list; POST checks the required fields and
    then replaces the record with the same id or appends it, DELETE removes
    every record with an id. The file is modelled as an in-memory value. */
module ArmlistRoutes {
  import opened Strings
  import opened Types

  /** A record of one of the three lists; each store holds one kind. */
  datatype Record = SquadRecord(squad: Squad) | MachineRecord(machine: Machine) | FactionRecord(faction: Faction)
  {
    function Id(): string
    {
      match this
      case SquadRecord(s) => s.id
      case MachineRecord(m) => m.id
      case FactionRecord(f) => f.id
    }
  }

  const StatusOk := 200
  const StatusBadRequest := 400
  const StatusNotFound := 404

  /** The POST check: a squad needs an id, a name, a faction and at least
      one soldier; a machine an id, a name and a faction; a faction an id,
      a name and a colour. */
  predicate MissingRequired(r: Record)
  {
    match r
    case SquadRecord(s) => s.id == "" || s.name == "" || s.faction == "" || |s.soldiers| == 0
    case MachineRecord(m) => m.id == "" || m.name == "" || m.faction == ""
    case FactionRecord(f) => f.id == "" || f.name == "" || f.color == ""
  }

  /** `findIndex` by id: the first position holding the id, or -1. */
  function FindIndex(rs: seq<Record>, id: string): (k: int)
    ensures -1 <= k < |rs|
    ensures k >= 0 ==> rs[k].Id() == id && forall j :: 0 <= j < k ==> rs[j].Id() != id
    ensures k == -1 <==> forall j :: 0 <= j < |rs| ==> rs[j].Id() != id
  {
    if rs == [] then -1
    else if rs[0].Id() == id then 0
    else
      var k := FindIndex(rs[1..], id);
      assert forall j :: 1 <= j < |rs| ==> rs[1..][j - 1] == rs[j];
      if k == -1 then -1 else k + 1
  }

  /** The list after a POST of an accepted record: the first record with
      its id is replaced in place, or the record is appended. */
  function Upserted(rs: seq<Record>, rec: Record): (r: seq<Record>)
    ensures |r| == if FindIndex(rs, rec.Id()) >= 0 then |rs| else |rs| + 1
    ensures FindIndex(r, rec.Id()) == (if FindIndex(rs, rec.Id()) >= 0 then FindIndex(rs, rec.Id()) else |rs|)
    ensures r[FindIndex(r, rec.Id())] == rec
    ensures forall j :: 0 <= j < |rs| && j != FindIndex(rs, rec.Id()) ==> r[j] == rs[j]
  {
    var k := FindIndex(rs, rec.Id());
    var r := if k >= 0 then rs[k := rec] else rs + [rec];
    FindIndexIs(r, rec.Id(), if k >= 0 then k else |rs|);
    r
  }

  /** The first position holding an id is the one `findIndex` reports. */
  lemma FindIndexIs(rs: seq<Record>, id: string, k: nat)
    requires k < |rs| && rs[k].Id() == id
    requires forall j :: 0 <= j < k ==> rs[j].Id() != id
    ensures FindIndex(rs, id) == k
  {
  }

  /** The DELETE filter: every record without the id, in order. */
  function WithoutId(rs: seq<Record>, id: string): (r: seq<Record>)
    ensures |r| <= |rs|
    ensures forall j :: 0 <= j < |r| ==> r[j].Id() != id
    ensures forall x :: x in r <==> x in rs && x.Id() != id
    ensures |r| == |rs| <==> FindIndex(rs, id) == -1
  {
    if rs == [] then []
    else
      var rest := WithoutId(rs[1..], id);
      assert forall x :: x in rs <==> x == rs[0] || x in rs[1..];
      assert FindIndex(rs, id) == -1 <==> rs[0].Id() != id && FindIndex(rs[1..], id) == -1;
      if rs[0].Id() == id then rest else [rs[0]] + rest
  }

  /** The filter keeps order: filtering a concatenation filters each part. */
  lemma {:induction false} WithoutIdConcat(a: seq<Record>, b: seq<Record>, id: string)
    ensures WithoutId(a + b, id) == WithoutId(a, id) + WithoutId(b, id)
  {
    if a == [] {
      assert a + b == b;
    } else {
      assert (a + b)[0] == a[0] && (a + b)[1..] == a[1..] + b;
      WithoutIdConcat(a[1..], b, id);
    }
  }

  /** Deleting an id that is not there changes nothing. */
  lemma {:induction false} WithoutAbsentId(rs: seq<Record>, id: string)
    requires FindIndex(rs, id) == -1
    ensures WithoutId(rs, id) == rs
  {
    if rs != [] {
      assert FindIndex(rs[1..], id) == -1 by {
        assert forall j :: 1 <= j < |rs| ==> rs[1..][j - 1] == rs[j];
      }
      WithoutAbsentId(rs[1..], id);
      assert [rs[0]] + rs[1..] == rs;
    }
  }

  /** Replacing a record by another with the same id is invisible to a
      DELETE of that id. */
  lemma {:induction false} WithoutIdIgnoresReplaced(rs: seq<Record>, k: nat, x: Record, id: string)
    requires k < |rs| && rs[k].Id() == id && x.Id() == id
    ensures WithoutId(rs[k := x], id) == WithoutId(rs, id)
  {
    var before, after := rs[..k], rs[k + 1..];
    assert rs == before + ([rs[k]] + after);
    assert rs[k := x] == before + ([x] + after);
    WithoutIdConcat(before, [rs[k]] + after, id);
    WithoutIdConcat(before, [x] + after, id);
    WithoutIdConcat([rs[k]], after, id);
    WithoutIdConcat([x], after, id);
    assert WithoutId([rs[k]], id) == [] && WithoutId([x], id) == [];
  }

  /** A DELETE of the posted id undoes the POST, whether it replaced a
      record or appended one: the list is the old list without that id. */
  lemma DeleteAfterUpsert(rs: seq<Record>, rec: Record)
    ensures WithoutId(Upserted(rs, rec), rec.Id()) == WithoutId(rs, rec.Id())
  {
    var k := FindIndex(rs, rec.Id());
    if k >= 0 {
      WithoutIdIgnoresReplaced(rs, k, rec, rec.Id());
    } else {
      WithoutIdConcat(rs, [rec], rec.Id());
      assert WithoutId([rec], rec.Id()) == [];
    }
  }

  /** POSTing the same record twice is POSTing it once. */
  lemma UpsertIdempotent(rs: seq<Record>, rec: Record)
    ensures Upserted(Upserted(rs, rec), rec) == Upserted(rs, rec)
  {
    var r := Upserted(rs, rec);
    assert r[FindIndex(r, rec.Id()) := rec] == r;
  }

  /** DELETE twice is DELETE once. */
  lemma DeleteIdempotent(rs: seq<Record>, id: string)
    ensures WithoutId(WithoutId(rs, id), id) == WithoutId(rs, id)
  {
    WithoutAbsentId(WithoutId(rs, id), id);
  }

  /** One store: the contents of its JSON file, or nothing when the file is
      missing or does not parse. */
  class Store {
    var file: Option<seq<Record>>

    constructor(initial: Option<seq<Record>>)
      ensures file == initial
    {
      file := initial;
    }

    /** The list read from the file; an unreadable file reads as empty. */
    function Records(): (rs: seq<Record>)
      reads this
      ensures file.None? ==> rs == []
      ensures file.Some? ==> rs == file.value
    {
      if file.Some? then file.value else []
    }

    /** GET: the list as read. */
    method Get() returns (rs: seq<Record>)
      ensures rs == Records()
    {
      rs := Records();
    }

    /** POST: a record missing a required field is refused with 400 and the
        file is left alone; otherwise it is stored and 200 returned. */
    method Post(body: Record) returns (status: int)
      modifies this
      ensures MissingRequired(body) ==> status == StatusBadRequest && file == old(file)
      ensures !MissingRequired(body) ==> status == StatusOk && file == Some(Upserted(old(Records()), body))
      ensures !MissingRequired(body) ==> body in Records() && |Records()| >= |old(Records())|
    {
      if MissingRequired(body) {
        return StatusBadRequest;
      }
      var records := Records();
      var existingIndex := FindIndex(records, body.Id());
      if existingIndex >= 0 {
        records := records[existingIndex := body];
      } else {
        records := records + [body];
      }
      file := Some(records);
      status := StatusOk;
    }

    /** DELETE: no id (or an empty one) is 400; an id no record has is 404
        and the file is left alone; otherwise every record with it goes. */
    method Delete(id: Option<string>) returns (status: int)
      modifies this
      ensures id.None? || id == Some("") ==> status == StatusBadRequest && file == old(file)
      ensures id.Some? && id.value != "" && FindIndex(old(Records()), id.value) == -1 ==>
                status == StatusNotFound && file == old(file)
      ensures id.Some? && id.value != "" && FindIndex(old(Records()), id.value) >= 0 ==>
                && status == StatusOk
                && file == Some(WithoutId(old(Records()), id.value))
                && |Records()| < |old(Records())|
    {
      if id.None? || id.value == "" {
        return StatusBadRequest;
      }
      var records := Records();
      var filtered := WithoutId(records, id.value);
      if |filtered| == |records| {
        return StatusNotFound;
      }
      file := Some(filtered);
      status := StatusOk;
    }
  }
}
