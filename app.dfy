/**
 * The six request handlers of the barcode tracker, acting on an in-memory
 * store that stands for the two database tables. Each handler is one atomic
 * step: a method of `Store` whose effect is the pure step function of the
 * same name with suffix `Step`, applied to the tables before the call.
 */
module App {
  import opened Models

  /** The contents of the database: both tables and the next surrogate key of each. */
  datatype Tables = Tables(
    volumes: seq<Volume>,
    totals: seq<BranchTotal>,
    nextVolumeId: nat,
    nextTotalId: nat)

  /** The constraints the schema declares, and keys below the next key to hand out. */
  predicate TablesValid(t: Tables)
  {
    && VolumeTableValid(t.volumes)
    && TotalTableValid(t.totals)
    && (forall i :: 0 <= i < |t.volumes| ==> t.volumes[i].id < t.nextVolumeId)
    && (forall i :: 0 <= i < |t.totals| ==> t.totals[i].id < t.nextTotalId)
  }

  const DuplicateMessage: string := "Volume já existe"
  const NotFoundMessage: string := "Volume não encontrado"

  /** The JSON body and HTTP status a handler answers with. */
  datatype Response =
    | Ok                                            // {success: true}
    | Added(id: nat, scannedAt: Timestamp)           // {success: true, id, scannedAt}
    | Duplicate                                     // {success: false, message, isDuplicate: true}
    | NotFound                                      // {success: false, message}
    | TotalOf(branchId: string, totalVolumes: int)  // {success: true, branchId, totalVolumes}
    | NoTotal                                       // {success: false, totalVolumes: null}
  {
    function Status(): int
    {
      match this
      case Duplicate => 400
      case NotFound => 404
      case NoTotal => 404
      case _ => 200
    }

    predicate Success()
    {
      Ok? || Added? || TotalOf?
    }

    predicate IsDuplicate()
    {
      Duplicate?
    }

    function Message(): Option<string>
    {
      match this
      case Duplicate => Some(DuplicateMessage)
      case NotFound => Some(NotFoundMessage)
      case _ => None
    }
  }

  /** One element of the array `get_volumes` answers with. */
  datatype VolumeEntry = VolumeEntry(
    id: nat,
    barcode: string,
    branchId: string,
    orderId: string,
    volumeId: string,
    scannedAt: Timestamp)

  function EntryOf(v: Volume): VolumeEntry
  {
    VolumeEntry(v.id, v.barcode, v.branchId, v.orderId, v.volumeId, v.scannedAt)
  }

  /** The tables after a handler and the response it sends. */
  datatype Outcome = Outcome(tables: Tables, response: Response)

  // ----- the handlers as functions of the tables -----

  /** `add_volume`: reject a barcode already stored, otherwise insert one row stamped `now`. */
  function AddVolumeStep(t: Tables, barcode: string, branchId: string, orderId: string,
                         volumeId: string, now: Timestamp): (o: Outcome)
    ensures HasBarcode(t.volumes, barcode) ==>
      o.response == Duplicate && o.response.Status() == 400 && o.tables == t
    ensures !HasBarcode(t.volumes, barcode) ==>
      && o.response == Added(t.nextVolumeId, now)
      && o.response.Status() == 200
      && o.tables.volumes == t.volumes + [Volume(t.nextVolumeId, barcode, branchId, orderId, volumeId, now)]
      && o.tables.totals == t.totals
      && o.tables.nextTotalId == t.nextTotalId
      && o.tables.nextVolumeId > t.nextVolumeId
  {
    match FindVolume(t.volumes, barcode)
    case Some(_) => Outcome(t, Duplicate)
    case None =>
      var v := Volume(t.nextVolumeId, barcode, branchId, orderId, volumeId, now);
      Outcome(t.(volumes := t.volumes + [v], nextVolumeId := t.nextVolumeId + 1), Added(v.id, v.scannedAt))
  }

  /** `delete_volume`: remove the row with that barcode, or answer not-found. */
  function DeleteVolumeStep(t: Tables, barcode: string): (o: Outcome)
    ensures !HasBarcode(t.volumes, barcode) ==>
      o.response == NotFound && o.response.Status() == 404 && o.tables == t
    ensures HasBarcode(t.volumes, barcode) ==>
      && o.response == Ok
      && o.tables.totals == t.totals
      && o.tables.nextVolumeId == t.nextVolumeId
      && o.tables.nextTotalId == t.nextTotalId
      && |o.tables.volumes| == |t.volumes| - 1
      && exists i :: 0 <= i < |t.volumes| && t.volumes[i].barcode == barcode &&
                     o.tables.volumes == t.volumes[..i] + t.volumes[i + 1..]
  {
    match FindVolume(t.volumes, barcode)
    case None => Outcome(t, NotFound)
    case Some(i) => Outcome(t.(volumes := t.volumes[..i] + t.volumes[i + 1..]), Ok)
  }

  /** `clear_volumes`: empty both tables. The key sequences are not reset. */
  function ClearStep(t: Tables): (o: Outcome)
    ensures o.response == Ok
    ensures o.tables.volumes == [] && o.tables.totals == []
    ensures o.tables.nextVolumeId == t.nextVolumeId && o.tables.nextTotalId == t.nextTotalId
  {
    Outcome(t.(volumes := [], totals := []), Ok)
  }

  /** `set_branch_total`: overwrite the total of the branch's row, or insert a row for it. */
  function SetBranchTotalStep(t: Tables, branchId: string, totalVolumes: int): (o: Outcome)
    ensures o.response == Ok && o.tables.volumes == t.volumes
    ensures o.tables.nextVolumeId == t.nextVolumeId
    ensures HasBranch(t.totals, branchId) ==>
      && |o.tables.totals| == |t.totals|
      && o.tables.nextTotalId == t.nextTotalId
      && exists i :: 0 <= i < |t.totals| && t.totals[i].branchId == branchId &&
                     o.tables.totals == t.totals[i := BranchTotal(t.totals[i].id, branchId, totalVolumes)]
    ensures !HasBranch(t.totals, branchId) ==>
      && o.tables.totals == t.totals + [BranchTotal(t.nextTotalId, branchId, totalVolumes)]
      && o.tables.nextTotalId > t.nextTotalId
  {
    match FindTotal(t.totals, branchId)
    case Some(i) =>
      Outcome(t.(totals := t.totals[i := t.totals[i].(totalVolumes := totalVolumes)]), Ok)
    case None =>
      var row := BranchTotal(t.nextTotalId, branchId, totalVolumes);
      Outcome(t.(totals := t.totals + [row], nextTotalId := t.nextTotalId + 1), Ok)
  }

  /** `get_branch_total`: the stored total of the branch, or not-found with a null total. */
  function BranchTotalResponse(t: Tables, branchId: string): (r: Response)
    ensures r.TotalOf? || r.NoTotal?
    ensures r.NoTotal? <==> !HasBranch(t.totals, branchId)
    ensures r.NoTotal? ==> r.Status() == 404 && !r.Success()
    ensures r.TotalOf? ==>
      && r.branchId == branchId && r.Status() == 200
      && exists i :: 0 <= i < |t.totals| && t.totals[i].branchId == branchId &&
                     t.totals[i].totalVolumes == r.totalVolumes
  {
    match FindTotal(t.totals, branchId)
    case None => NoTotal
    case Some(i) => TotalOf(t.totals[i].branchId, t.totals[i].totalVolumes)
  }

  // ----- properties of the handlers -----

  /** Adding keeps every constraint of the schema; a new row gets a key no stored row has. */
  lemma AddVolumePreservesValid(t: Tables, barcode: string, branchId: string, orderId: string,
                                volumeId: string, now: Timestamp)
    requires TablesValid(t)
    requires HasBarcode(t.volumes, barcode) || VolumeFieldsFit(barcode, branchId, orderId, volumeId)
    ensures TablesValid(AddVolumeStep(t, barcode, branchId, orderId, volumeId, now).tables)
    ensures var r := AddVolumeStep(t, barcode, branchId, orderId, volumeId, now).response;
      r.Added? ==> forall i :: 0 <= i < |t.volumes| ==> t.volumes[i].id != r.id
  {
  }

  /** Submitting the same barcode twice: the second submission is a duplicate and changes nothing. */
  lemma AddTwiceIsDuplicate(t: Tables, barcode: string,
                            branchId: string, orderId: string, volumeId: string, now: Timestamp,
                            branchId': string, orderId': string, volumeId': string, now': Timestamp)
    ensures var t1 := AddVolumeStep(t, barcode, branchId, orderId, volumeId, now).tables;
      AddVolumeStep(t1, barcode, branchId', orderId', volumeId', now') == Outcome(t1, Duplicate)
  {
    var t1 := AddVolumeStep(t, barcode, branchId, orderId, volumeId, now).tables;
    if !HasBarcode(t.volumes, barcode) {
      assert t1.volumes[|t.volumes|].barcode == barcode;
    }
  }

  /** Deleting a barcode right after adding it gives back the volumes table as it was. */
  lemma AddThenDeleteRestores(t: Tables, barcode: string, branchId: string, orderId: string,
                              volumeId: string, now: Timestamp)
    requires !HasBarcode(t.volumes, barcode)
    ensures var t1 := AddVolumeStep(t, barcode, branchId, orderId, volumeId, now).tables;
      var o := DeleteVolumeStep(t1, barcode);
      o.response == Ok && o.tables.volumes == t.volumes && o.tables.totals == t.totals
  {
    var t1 := AddVolumeStep(t, barcode, branchId, orderId, volumeId, now).tables;
    var n := |t.volumes|;
    assert t1.volumes[n].barcode == barcode;
    assert forall j :: 0 <= j < n ==> t1.volumes[j] == t.volumes[j];
    assert FindVolume(t1.volumes, barcode) == Some(n);
    assert t1.volumes[..n] == t.volumes;
  }

  /** Removing one row keeps every constraint of the schema. */
  lemma DeleteVolumePreservesValid(t: Tables, barcode: string)
    requires TablesValid(t)
    ensures TablesValid(DeleteVolumeStep(t, barcode).tables)
  {
  }

  /** Deleting a barcode removes exactly the row holding it: afterwards no row has it, and
      every other row is still there. */
  lemma DeleteRemovesExactlyThatRow(t: Tables, barcode: string)
    requires TablesValid(t)
    ensures var ws := DeleteVolumeStep(t, barcode).tables.volumes;
      && !HasBarcode(ws, barcode)
      && (forall v :: v in ws <==> v in t.volumes && v.barcode != barcode)
      && |ws| == if HasBarcode(t.volumes, barcode) then |t.volumes| - 1 else |t.volumes|
  {
  }

  /** After clearing, both tables satisfy the schema, every branch lookup is not-found and every
      deletion is not-found. */
  lemma ClearEmptiesBothTables(t: Tables, branchId: string, barcode: string)
    requires TablesValid(t)
    ensures var t1 := ClearStep(t).tables;
      && TablesValid(t1)
      && BranchTotalResponse(t1, branchId) == NoTotal
      && DeleteVolumeStep(t1, barcode) == Outcome(t1, NotFound)
  {
  }

  /** The upsert keeps every constraint of the schema. */
  lemma SetBranchTotalPreservesValid(t: Tables, branchId: string, totalVolumes: int)
    requires TablesValid(t) && BranchIdFits(branchId)
    ensures TablesValid(SetBranchTotalStep(t, branchId, totalVolumes).tables)
  {
  }

  /** The upsert leaves exactly one row for the branch, holding the new total, and keeps every
      row of every other branch. */
  lemma SetBranchTotalUpserts(t: Tables, branchId: string, totalVolumes: int)
    requires TablesValid(t) && BranchIdFits(branchId)
    ensures var ts := SetBranchTotalStep(t, branchId, totalVolumes).tables.totals;
      && (exists i :: 0 <= i < |ts| && ts[i].branchId == branchId && ts[i].totalVolumes == totalVolumes)
      && (forall i, j ::
            0 <= i < |ts| && 0 <= j < |ts| && ts[i].branchId == branchId && ts[j].branchId == branchId
            ==> i == j)
      && (forall x: BranchTotal :: x.branchId != branchId ==> (x in ts <==> x in t.totals))
  {
    SetBranchTotalPreservesValid(t, branchId, totalVolumes);
    var ts := SetBranchTotalStep(t, branchId, totalVolumes).tables.totals;
    match FindTotal(t.totals, branchId)
    case Some(k) =>
      assert ts[k].branchId == branchId && ts[k].totalVolumes == totalVolumes;
      forall x: BranchTotal | x.branchId != branchId ensures x in ts <==> x in t.totals {
        if x in ts {
          var j :| 0 <= j < |ts| && ts[j] == x;
          assert t.totals[j] == x;
        }
        if x in t.totals {
          var j :| 0 <= j < |t.totals| && t.totals[j] == x;
          assert ts[j] == x;
        }
      }
    case None =>
      assert ts[|t.totals|].branchId == branchId;
      forall x: BranchTotal | x.branchId != branchId ensures x in ts <==> x in t.totals {
        if x in ts {
          var j :| 0 <= j < |ts| && ts[j] == x;
          assert j < |t.totals|;
          assert t.totals[j] == x;
        }
      }
  }

  /** Reading a branch's total right after setting it yields the value just set. */
  lemma SetThenGet(t: Tables, branchId: string, totalVolumes: int)
    ensures var t1 := SetBranchTotalStep(t, branchId, totalVolumes).tables;
      BranchTotalResponse(t1, branchId) == TotalOf(branchId, totalVolumes)
  {
    var ts := SetBranchTotalStep(t, branchId, totalVolumes).tables.totals;
    match FindTotal(t.totals, branchId)
    case Some(k) =>
      assert ts[k].branchId == branchId;
      assert forall j :: 0 <= j < k ==> ts[j] == t.totals[j];
      assert FindTotal(ts, branchId) == Some(k);
    case None =>
      var n := |t.totals|;
      assert ts[n].branchId == branchId;
      assert forall j :: 0 <= j < n ==> ts[j] == t.totals[j];
      assert FindTotal(ts, branchId) == Some(n);
  }

  /** Setting one branch's total does not change what any other branch reads. */
  lemma SetLeavesOtherBranches(t: Tables, branchId: string, totalVolumes: int, other: string)
    requires other != branchId
    ensures var t1 := SetBranchTotalStep(t, branchId, totalVolumes).tables;
      BranchTotalResponse(t1, other) == BranchTotalResponse(t, other)
  {
    var ts := SetBranchTotalStep(t, branchId, totalVolumes).tables.totals;
    // Every row keeps its branch, and a row that changed or was appended is `branchId`'s.
    assert forall j :: 0 <= j < |t.totals| ==> ts[j].branchId == t.totals[j].branchId;
    assert forall j :: 0 <= j < |t.totals| && t.totals[j].branchId != branchId ==> ts[j] == t.totals[j];
    assert forall j :: |t.totals| <= j < |ts| ==> ts[j].branchId == branchId;
    match FindTotal(t.totals, other)
    case None =>
      assert !HasBranch(ts, other);
    case Some(k) =>
      assert ts[k] == t.totals[k];
      assert FindTotal(ts, other) == Some(k);
  }

  /** The empty database `db.create_all` starts from (keys start at 1). */
  function EmptyTables(): (t: Tables)
    ensures TablesValid(t) && t.volumes == [] && t.totals == []
  {
    Tables([], [], 1, 1)
  }

  /** Scan B1, scan it again (duplicate), list one row, delete it, list nothing. */
  lemma ScanScenario(now: Timestamp, later: Timestamp)
    ensures var o1 := AddVolumeStep(EmptyTables(), "B1", "BR1", "O1", "V1", now);
      var o2 := AddVolumeStep(o1.tables, "B1", "BR1", "O1", "V1", later);
      var o3 := DeleteVolumeStep(o2.tables, "B1");
      && o1.response.Success() && o1.response.Status() == 200
      && o2.response.IsDuplicate() && o2.response.Status() == 400
      && |o2.tables.volumes| == 1 && o2.tables.volumes[0].barcode == "B1"
      && o3.response == Ok && o3.tables.volumes == []
  {
  }

  /** Declare 20 volumes for BR1, then 25: BR1 reads 25 from its single row. */
  lemma BranchTotalScenario()
    ensures var t1 := SetBranchTotalStep(EmptyTables(), "BR1", 20).tables;
      var t2 := SetBranchTotalStep(t1, "BR1", 25).tables;
      BranchTotalResponse(t2, "BR1") == TotalOf("BR1", 25) && |t2.totals| == 1
  {
  }

  // ----- the store the handlers act on -----

  /** The database as the handlers see it: two tables updated in place by each request. */
  class Store {
    var volumes: seq<Volume>
    var totals: seq<BranchTotal>
    var nextVolumeId: nat
    var nextTotalId: nat

    function State(): Tables
      reads this
    {
      Tables(volumes, totals, nextVolumeId, nextTotalId)
    }

    ghost predicate Valid()
      reads this
    {
      TablesValid(State())
    }

    /** Freshly created tables. */
    constructor ()
      ensures Valid() && State() == EmptyTables()
    {
      volumes, totals := [], [];
      nextVolumeId, nextTotalId := 1, 1;
    }

    /** `get_volumes`: one entry per stored row, each row's columns copied. No order is promised. */
    method GetVolumes() returns (result: seq<VolumeEntry>)
      ensures |result| == |volumes|
      ensures forall v :: v in volumes <==> EntryOf(v) in result
      ensures forall v :: multiset(result)[EntryOf(v)] == multiset(volumes)[v]
    {
      result := [];
      for i := 0 to |volumes|
        invariant |result| == i
        invariant forall k :: 0 <= k < i ==> result[k] == EntryOf(volumes[k])
        invariant forall v :: multiset(result)[EntryOf(v)] == multiset(volumes[..i])[v]
      {
        assert volumes[..i + 1] == volumes[..i] + [volumes[i]];
        result := result + [EntryOf(volumes[i])];
      }
      assert volumes[..|volumes|] == volumes;
      forall v ensures v in volumes <==> EntryOf(v) in result {
        if EntryOf(v) in result {
          var k :| 0 <= k < |result| && result[k] == EntryOf(v);
          assert volumes[k] == v;
        }
        if v in volumes {
          var k :| 0 <= k < |volumes| && volumes[k] == v;
          assert result[k] == EntryOf(v);
        }
      }
    }

    /** `add_volume`. */
    method AddVolume(barcode: string, branchId: string, orderId: string, volumeId: string,
                     now: Timestamp) returns (r: Response)
      requires Valid()
      // A stored barcode is answered before any insert, whatever the other values hold.
      requires HasBarcode(volumes, barcode) || VolumeFieldsFit(barcode, branchId, orderId, volumeId)
      modifies this
      ensures Valid()
      ensures var o := AddVolumeStep(old(State()), barcode, branchId, orderId, volumeId, now);
        State() == o.tables && r == o.response
    {
      AddVolumePreservesValid(State(), barcode, branchId, orderId, volumeId, now);
      var existing := FindVolume(volumes, barcode);
      if existing.Some? {
        return Duplicate;
      }
      var volume := Volume(nextVolumeId, barcode, branchId, orderId, volumeId, now);
      volumes := volumes + [volume];
      nextVolumeId := nextVolumeId + 1;
      r := Added(volume.id, volume.scannedAt);
    }

    /** `delete_volume`. */
    method DeleteVolume(barcode: string) returns (r: Response)
      requires Valid()
      modifies this
      ensures Valid()
      ensures var o := DeleteVolumeStep(old(State()), barcode);
        State() == o.tables && r == o.response
    {
      DeleteVolumePreservesValid(State(), barcode);
      var found := FindVolume(volumes, barcode);
      if found.None? {
        return NotFound;
      }
      var k := found.value;
      volumes := volumes[..k] + volumes[k + 1..];
      r := Ok;
    }

    /** `clear_volumes`: deletes every volume and every branch total. */
    method ClearVolumes() returns (r: Response)
      requires Valid()
      modifies this
      ensures Valid()
      ensures var o := ClearStep(old(State()));
        State() == o.tables && r == o.response
    {
      volumes := [];
      totals := [];
      r := Ok;
    }

    /** `set_branch_total`. */
    method SetBranchTotal(branchId: string, totalVolumes: int) returns (r: Response)
      requires Valid()
      requires BranchIdFits(branchId)
      modifies this
      ensures Valid()
      ensures var o := SetBranchTotalStep(old(State()), branchId, totalVolumes);
        State() == o.tables && r == o.response
    {
      SetBranchTotalPreservesValid(State(), branchId, totalVolumes);
      var found := FindTotal(totals, branchId);
      if found.Some? {
        var k := found.value;
        totals := totals[k := totals[k].(totalVolumes := totalVolumes)];
      } else {
        totals := totals + [BranchTotal(nextTotalId, branchId, totalVolumes)];
        nextTotalId := nextTotalId + 1;
      }
      r := Ok;
    }

    /** `get_branch_total`. */
    method GetBranchTotal(branchId: string) returns (r: Response)
      ensures r == BranchTotalResponse(State(), branchId)
    {
      var found := FindTotal(totals, branchId);
      if found.None? {
        return NoTotal;
      }
      var row := totals[found.value];
      r := TotalOf(row.branchId, row.totalVolumes);
    }
  }
}
