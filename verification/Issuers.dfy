/** Certificate authority issuers (pki_issuers_stage8.go, pki_ops_stage8.go): the table with its unique
    indexes, the activation transaction and the choice of the signing issuer in file mode. */
module Issuers {
  import opened Options

  datatype Status = Pending | Active | Retired

  datatype Issuer = Issuer(id: string, caId: string, status: Status, rotateFrom: Option<string>)

  // ----- The table's constraints -----

  predicate UniqueIds(rows: seq<Issuer>) {
    forall i, j :: 0 <= i < j < |rows| ==> rows[i].id != rows[j].id && rows[i].caId != rows[j].caId
  }

  predicate SingleActive(rows: seq<Issuer>) {
    forall i, j :: 0 <= i < j < |rows| ==> !(rows[i].status.Active? && rows[j].status.Active?)
  }

  predicate IsActive(rows: seq<Issuer>, id: string) { exists i :: 0 <= i < |rows| && rows[i].id == id && rows[i].status.Active? }

  predicate Known(rows: seq<Issuer>, id: string) { exists i :: 0 <= i < |rows| && rows[i].id == id }

  predicate KnownCa(rows: seq<Issuer>, caId: string) { exists i :: 0 <= i < |rows| && rows[i].caId == caId }

  /** `UPDATE pki_issuers SET ... WHERE issuer_id = id`. */
  function WithStatus(rows: seq<Issuer>, id: string, status: Status, rotateFrom: Option<string>): (r: seq<Issuer>)
    ensures |r| == |rows|
    ensures forall i :: 0 <= i < |rows| ==> r[i] == if rows[i].id == id then rows[i].(status := status, rotateFrom := rotateFrom) else rows[i]
  {
    seq(|rows|, i requires 0 <= i < |rows| => if rows[i].id == id then rows[i].(status := status, rotateFrom := rotateFrom) else rows[i])
  }

  /** `id` has become the active issuer, in the place of the one that was active before, if one was. */
  predicate Handover(was: seq<Issuer>, rows: seq<Issuer>, id: string, previous: Option<Issuer>) {
    && |rows| == |was|
    && (match previous
        case None => forall i :: 0 <= i < |was| ==> !was[i].status.Active?
        case Some(p) => p.status.Retired? && p.(status := Active) in was)
    && forall i :: 0 <= i < |was| ==>
         rows[i] == if was[i].id == id then was[i].(status := Active, rotateFrom := if previous.None? then None else Some(previous.value.id))
                    else if was[i].status.Active? then was[i].(status := Retired)
                    else was[i]
  }

  datatype Rotation = Rotation(active: Issuer, previous: Option<Issuer>) | UnknownIssuer | IndexViolated

  class IssuerStore {
    var rows: seq<Issuer>

    ghost predicate Valid()
      reads this
    {
      UniqueIds(rows) && SingleActive(rows)
    }

    constructor ()
      ensures Valid() && rows == []
    {
      rows := [];
    }

    /** `CreatePKIIssuer`: false is a conflict on one of the unique columns. */
    method Create(id: string, caId: string) returns (ok: bool)
      requires Valid()
      modifies this
      ensures Valid() && (ok <==> !Known(old(rows), id) && !KnownCa(old(rows), caId))
      ensures rows == if ok then old(rows) + [Issuer(id, caId, Pending, None)] else old(rows)
    {
      var i := 0;
      while i < |rows|
        invariant 0 <= i <= |rows|
        invariant forall j :: 0 <= j < i ==> rows[j].id != id && rows[j].caId != caId
      {
        if rows[i].id == id || rows[i].caId == caId { return false; }
        i := i + 1;
      }
      rows := rows + [Issuer(id, caId, Pending, None)];
      ok := true;
    }

    method GetById(id: string) returns (r: Option<Issuer>)
      ensures r.Some? <==> Known(rows, id)
      ensures r.Some? ==> r.value in rows && r.value.id == id
    {
      var i := 0;
      while i < |rows|
        invariant 0 <= i <= |rows| && forall j :: 0 <= j < i ==> rows[j].id != id
      {
        if rows[i].id == id { return Some(rows[i]); }
        i := i + 1;
      }
      r := None;
    }

    method GetByCa(caId: string) returns (r: Option<Issuer>)
      ensures r.Some? <==> KnownCa(rows, caId)
      ensures r.Some? ==> r.value in rows && r.value.caId == caId
    {
      var i := 0;
      while i < |rows|
        invariant 0 <= i <= |rows| && forall j :: 0 <= j < i ==> rows[j].caId != caId
      {
        if rows[i].caId == caId { return Some(rows[i]); }
        i := i + 1;
      }
      r := None;
    }

    method GetActive() returns (r: Option<Issuer>)
      ensures r.None? <==> forall i :: 0 <= i < |rows| ==> !rows[i].status.Active?
      ensures r.Some? ==> r.value in rows && r.value.status.Active?
    {
      var i := 0;
      while i < |rows|
        invariant 0 <= i <= |rows| && forall j :: 0 <= j < i ==> !rows[j].status.Active?
      {
        if rows[i].status.Active? { return Some(rows[i]); }
        i := i + 1;
      }
      r := None;
    }

    /** The row an UPDATE by `issuer_id` hits, or the number of rows. */
    static method RowOf(rows: seq<Issuer>, id: string) returns (k: nat)
      ensures k <= |rows| && (k < |rows| ==> rows[k].id == id)
      ensures forall j :: 0 <= j < k ==> rows[j].id != id
    {
      k := 0;
      while k < |rows| && rows[k].id != id
        invariant 0 <= k <= |rows| && forall j :: 0 <= j < k ==> rows[j].id != id
      {
        k := k + 1;
      }
    }

    /** `ActivatePKIIssuer`: one transaction. No statement in it violates the single-active index, and
        nothing is kept when the issuer is unknown. */
    method Activate(id: string) returns (r: Rotation)
      requires Valid()
      modifies this
      ensures Valid() && !r.IndexViolated?
      ensures r.UnknownIssuer? <==> !Known(old(rows), id)
      ensures r.UnknownIssuer? ==> rows == old(rows)
      ensures r.Rotation? ==>
        && r.active in rows && r.active.id == id && r.active.status.Active? && IsActive(rows, id)
        && |rows| == |old(rows)| && forall i :: 0 <= i < |rows| ==> rows[i].id == old(rows)[i].id && rows[i].caId == old(rows)[i].caId
      ensures r.Rotation? && !IsActive(old(rows), id) ==> Handover(old(rows), rows, id, r.previous)
      ensures r.Rotation? && IsActive(old(rows), id) ==> rows == old(rows) && r.previous == None
    {
      hide UniqueIds, SingleActive, Known, IsActive, Handover;
      var current := GetActive();
      if IsActive(rows, id) { ActiveIsCurrent(rows, current, id); }
      var tx := rows;
      var previousId := None;
      var previous := None;
      if current.Some? {
        ActiveKnown(rows, current.value);
        if current.value.id == id { return Rotation(current.value, None); }
        previousId := Some(current.value.id);
        tx := WithStatus(tx, current.value.id, Retired, current.value.rotateFrom);
        previous := Some(current.value.(status := Retired));
      }
      NoneActive(rows, current, tx);
      var k := RowOf(tx, id);
      if k == |tx| {
        StillUnknown(rows, tx, id);
        return UnknownIssuer;
      }
      Rotated(rows, tx, id, k, previousId);
      HandedOver(rows, current, tx, id, previousId);
      tx := WithStatus(tx, id, Active, previousId);
      if !SingleActive(tx) { return IndexViolated; }
      rows := tx;
      r := Rotation(tx[k], previous);
    }

    /** `RetirePKIIssuer`. */
    method Retire(id: string) returns (ok: bool)
      requires Valid()
      modifies this
      ensures Valid() && |rows| == |old(rows)| && !IsActive(rows, id) && (ok <==> Known(old(rows), id))
      ensures forall i :: 0 <= i < |rows| ==> rows[i] == if rows[i].id == id then old(rows)[i].(status := Retired) else old(rows)[i]
    {
      var tx := rows;
      var i := 0;
      ok := false;
      while i < |tx|
        invariant 0 <= i <= |tx| == |rows| && (ok <==> exists j :: 0 <= j < i && rows[j].id == id)
        invariant forall j :: 0 <= j < |tx| ==> tx[j] == if j < i && rows[j].id == id then rows[j].(status := Retired) else rows[j]
      {
        if tx[i].id == id {
          tx := tx[i := tx[i].(status := Retired)];
          ok := true;
        }
        i := i + 1;
      }
      rows := tx;
    }

    /** `ensureSigningIssuer` in file mode. With a store that answers, it always succeeds: the issuer it
        returns is the active one, and is the configured issuer or the one of the loaded CA. */
    method EnsureSigning(configured: string, caId: string) returns (r: Option<Issuer>)
      requires Valid()
      modifies this
      ensures Valid() && r.Some? && r.value in rows && r.value.status.Active?
      ensures r.value.id == configured || (r.value.caId == caId && !Known(old(rows), configured))
      ensures forall i :: 0 <= i < |old(rows)| ==> i < |rows| && rows[i].id == old(rows)[i].id && rows[i].caId == old(rows)[i].caId
      ensures |rows| == |old(rows)| + if Known(old(rows), configured) || KnownCa(old(rows), caId) then 0 else 1
      ensures |rows| > |old(rows)| ==> rows[|old(rows)|].id == configured && rows[|old(rows)|].caId == caId
      ensures forall i :: 0 <= i < |old(rows)| && rows[i].id != r.value.id ==>
        rows[i] == old(rows)[i] || (old(rows)[i].status.Active? && rows[i] == old(rows)[i].(status := Retired))
    {
      var id := configured;
      var current := GetById(configured);
      if current == None {
        var byCa := GetByCa(caId);
        if byCa.Some? {
          id := byCa.value.id;
          current := byCa;
        } else {
          var created := Create(configured, caId);
          assert created;
          assert rows[|rows| - 1].id == configured;
          current := Some(rows[|rows| - 1]);
        }
      }
      assert Known(rows, id);
      ghost var ids := rows;
      var active := GetActive();
      if active == None || active.value.id != id {
        var rotation := Activate(id);
        r := Some(rotation.active);
        SameCa(ids, rows, current.value, rotation.active);
      } else {
        OneRow(rows, current.value, active.value);
        r := current;
      }
    }
  }

  lemma ActiveIsCurrent(rows: seq<Issuer>, current: Option<Issuer>, id: string)
    requires SingleActive(rows) && IsActive(rows, id)
    requires current.None? ==> forall i :: 0 <= i < |rows| ==> !rows[i].status.Active?
    requires current.Some? ==> current.value in rows && current.value.status.Active?
    ensures current.Some? && current.value.id == id
  {
  }

  lemma ActiveKnown(rows: seq<Issuer>, x: Issuer)
    requires x in rows && x.status.Active?
    ensures Known(rows, x.id) && IsActive(rows, x.id)
  {
    var i :| 0 <= i < |rows| && rows[i] == x;
    assert rows[i].id == x.id && rows[i].status.Active?;
  }

  /** After the first statement of the transaction no row is active. */
  lemma NoneActive(rows: seq<Issuer>, current: Option<Issuer>, tx: seq<Issuer>)
    requires UniqueIds(rows) && SingleActive(rows)
    requires current.None? ==> tx == rows && forall i :: 0 <= i < |rows| ==> !rows[i].status.Active?
    requires current.Some? ==> current.value in rows && current.value.status.Active?
    requires current.Some? ==> tx == WithStatus(rows, current.value.id, Retired, current.value.rotateFrom)
    ensures Quieted(rows, tx) && UniqueIds(tx)
  {
  }

  /** `tx` is `rows` with whatever was active retired. */
  predicate Quieted(rows: seq<Issuer>, tx: seq<Issuer>) {
    && |tx| == |rows|
    && forall i :: 0 <= i < |rows| ==>
         tx[i].id == rows[i].id && tx[i].caId == rows[i].caId
         && tx[i].status == if rows[i].status.Active? then Retired else rows[i].status
  }

  lemma StillUnknown(rows: seq<Issuer>, tx: seq<Issuer>, id: string)
    requires Quieted(rows, tx) && forall j :: 0 <= j < |tx| ==> tx[j].id != id
    ensures !Known(rows, id)
  {
    forall k | 0 <= k < |rows| ensures rows[k].id != id { assert tx[k].id == rows[k].id; }
  }

  lemma Rotated(rows: seq<Issuer>, tx: seq<Issuer>, id: string, k: nat, previousId: Option<string>)
    requires Quieted(rows, tx) && UniqueIds(tx) && k < |tx| && tx[k].id == id
    ensures var after := WithStatus(tx, id, Active, previousId);
      && UniqueIds(after) && SingleActive(after) && Known(rows, id) && IsActive(after, id)
      && after[k].id == id && after[k].status.Active?
      && forall i :: 0 <= i < |after| ==>
           after[i].id == rows[i].id && after[i].caId == rows[i].caId
           && after[i].status == if after[i].id == id then Active else if rows[i].status.Active? then Retired else rows[i].status
  {
    var after := WithStatus(tx, id, Active, previousId);
    assert rows[k].id == id;
    assert after[k].id == id && after[k].status.Active?;
  }

  lemma HandedOver(rows: seq<Issuer>, current: Option<Issuer>, tx: seq<Issuer>, id: string, previousId: Option<string>)
    requires UniqueIds(rows) && SingleActive(rows)
    requires match current
      case None => tx == rows && previousId == None && forall i :: 0 <= i < |rows| ==> !rows[i].status.Active?
      case Some(x) => x in rows && x.status.Active? && x.id != id && previousId == Some(x.id) && tx == WithStatus(rows, x.id, Retired, x.rotateFrom)
    ensures Handover(rows, WithStatus(tx, id, Active, previousId), id, if current.None? then None else Some(current.value.(status := Retired)))
  {
    if current.Some? {
      var k :| 0 <= k < |rows| && rows[k] == current.value;
      assert current.value.(status := Retired).(status := Active) == rows[k];
      assert forall i :: 0 <= i < |rows| ==> (rows[i].status.Active? <==> i == k) && (rows[i].id == rows[k].id <==> i == k);
    }
  }

  lemma OneRow(rows: seq<Issuer>, x: Issuer, y: Issuer)
    requires UniqueIds(rows) && x in rows && y in rows && x.id == y.id
    ensures x == y
  {
  }

  lemma SameCa(before: seq<Issuer>, after: seq<Issuer>, x: Issuer, y: Issuer)
    requires UniqueIds(before) && x in before && y in after && x.id == y.id && |after| == |before|
    requires forall i :: 0 <= i < |after| ==> after[i].id == before[i].id && after[i].caId == before[i].caId
    ensures x.caId == y.caId
  {
    var i :| 0 <= i < |before| && before[i] == x;
    var j :| 0 <= j < |after| && after[j] == y;
    assert before[j].id == x.id;
  }
}
