/**
 * The two tables of the barcode tracker: `volumes` (one row per scanned
 * barcode) and `branch_totals` (the declared volume count of a branch).
 * Rows are values; the store that holds them lives in module App.
 */
module Models {

  datatype Option<T> = None | Some(value: T)

  /** The instant a scan was stored. No contract looks inside it (`ticks` is never used). */
  datatype Timestamp = Timestamp(ticks: int)

  /** Declared width of the `barcode` column, String(50). */
  const BarcodeWidth: nat := 50
  /** Declared width of the branch, order and volume code columns, String(10). */
  const CodeWidth: nat := 10

  /** A row of the `volumes` table. The key and the four codes are NOT NULL; `scanned_at` may be
      NULL in the schema, but its insert default always fills it, so no field is optional. */
  datatype Volume = Volume(
    id: nat,
    barcode: string,
    branchId: string,
    orderId: string,
    volumeId: string,
    scannedAt: Timestamp)

  /** A row of the `branch_totals` table. */
  datatype BranchTotal = BranchTotal(id: nat, branchId: string, totalVolumes: int)

  /** The four client-supplied values of a scan fit their declared column widths. */
  predicate VolumeFieldsFit(barcode: string, branchId: string, orderId: string, volumeId: string)
  {
    |barcode| <= BarcodeWidth && |branchId| <= CodeWidth
    && |orderId| <= CodeWidth && |volumeId| <= CodeWidth
  }

  /** A branch code fits the declared width of `branch_totals.branch_id`. */
  predicate BranchIdFits(branchId: string)
  {
    |branchId| <= CodeWidth
  }

  // ----- constraints of the `volumes` table -----

  /** `barcode` is UNIQUE. */
  predicate UniqueBarcodes(vs: seq<Volume>)
  {
    forall i, j :: 0 <= i < j < |vs| ==> vs[i].barcode != vs[j].barcode
  }

  /** `id` is the primary key. */
  predicate UniqueVolumeIds(vs: seq<Volume>)
  {
    forall i, j :: 0 <= i < j < |vs| ==> vs[i].id != vs[j].id
  }

  predicate VolumeRowsFit(vs: seq<Volume>)
  {
    forall i :: 0 <= i < |vs| ==>
      VolumeFieldsFit(vs[i].barcode, vs[i].branchId, vs[i].orderId, vs[i].volumeId)
  }

  predicate VolumeTableValid(vs: seq<Volume>)
  {
    UniqueBarcodes(vs) && UniqueVolumeIds(vs) && VolumeRowsFit(vs)
  }

  predicate HasBarcode(vs: seq<Volume>, barcode: string)
  {
    exists i :: 0 <= i < |vs| && vs[i].barcode == barcode
  }

  // ----- constraints of the `branch_totals` table -----

  /** `branch_id` is UNIQUE. */
  predicate UniqueBranchIds(ts: seq<BranchTotal>)
  {
    forall i, j :: 0 <= i < j < |ts| ==> ts[i].branchId != ts[j].branchId
  }

  /** `id` is the primary key. */
  predicate UniqueTotalIds(ts: seq<BranchTotal>)
  {
    forall i, j :: 0 <= i < j < |ts| ==> ts[i].id != ts[j].id
  }

  predicate TotalRowsFit(ts: seq<BranchTotal>)
  {
    forall i :: 0 <= i < |ts| ==> BranchIdFits(ts[i].branchId)
  }

  predicate TotalTableValid(ts: seq<BranchTotal>)
  {
    UniqueBranchIds(ts) && UniqueTotalIds(ts) && TotalRowsFit(ts)
  }

  predicate HasBranch(ts: seq<BranchTotal>, branchId: string)
  {
    exists i :: 0 <= i < |ts| && ts[i].branchId == branchId
  }

  // ----- keyed lookups: `filter_by(key=k).first()` -----

  /** Index of the first row whose barcode is `barcode`, or None when no row has it. */
  function FindVolume(vs: seq<Volume>, barcode: string): (r: Option<nat>)
    ensures r.None? <==> !HasBarcode(vs, barcode)
    ensures r.Some? ==> r.value < |vs| && vs[r.value].barcode == barcode
    ensures r.Some? ==> forall j :: 0 <= j < r.value ==> vs[j].barcode != barcode
  {
    if |vs| == 0 then None
    else if vs[0].barcode == barcode then Some(0)
    else match FindVolume(vs[1..], barcode)
      case None => None
      case Some(i) => Some(i + 1)
  }

  /** Index of the first row whose branch is `branchId`, or None when no row has it. */
  function FindTotal(ts: seq<BranchTotal>, branchId: string): (r: Option<nat>)
    ensures r.None? <==> !HasBranch(ts, branchId)
    ensures r.Some? ==> r.value < |ts| && ts[r.value].branchId == branchId
    ensures r.Some? ==> forall j :: 0 <= j < r.value ==> ts[j].branchId != branchId
  {
    if |ts| == 0 then None
    else if ts[0].branchId == branchId then Some(0)
    else match FindTotal(ts[1..], branchId)
      case None => None
      case Some(i) => Some(i + 1)
  }

  /** Under the UNIQUE constraint, the row `first()` returns is the only row with that barcode. */
  lemma FindVolumeIsTheRow(vs: seq<Volume>, barcode: string, k: nat)
    requires UniqueBarcodes(vs)
    requires k < |vs| && vs[k].barcode == barcode
    ensures FindVolume(vs, barcode) == Some(k)
  {
  }

  /** Under the UNIQUE constraint, the row `first()` returns is the only row with that branch. */
  lemma FindTotalIsTheRow(ts: seq<BranchTotal>, branchId: string, k: nat)
    requires UniqueBranchIds(ts)
    requires k < |ts| && ts[k].branchId == branchId
    ensures FindTotal(ts, branchId) == Some(k)
  {
  }
}
