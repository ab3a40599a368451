# Barcode volume tracker — Dafny model

The tracker records scanned "volume" barcodes, each tied to a branch, an
order and a volume code, refuses a barcode that was already scanned, and
keeps a declared total of volumes per branch so that a branch's progress
("12 of 20 scanned") can be reconciled. Its logic is six HTTP handlers
acting on two database tables, `volumes` and `branch_totals`.

This project models that logic:

- `models.dfy` (module `Models`) holds the rows of the two tables as
  datatypes (`Volume`, `BranchTotal`), the schema's constraints as predicates
  (UNIQUE barcode, UNIQUE branch id, primary keys, declared column widths),
  and the keyed lookup `filter_by(key=k).first()` as `FindVolume` and
  `FindTotal`: the first row whose key is `k`, if any.
- `app.dfy` (module `App`) holds the database as a class `Store` whose fields
  are the two tables and the next surrogate key of each table. Every handler
  is a method of `Store` and runs as one atomic step. Its effect is given by
  a pure step function over a `Tables` value (`AddVolumeStep`,
  `DeleteVolumeStep`, `ClearStep`, `SetBranchTotalStep`,
  `BranchTotalResponse`). The handler's JSON body and status code are a
  `Response` value (`Ok`, `Added`, `Duplicate`, `NotFound`, `TotalOf`,
  `NoTotal`). Lemmas about the step functions prove that each handler keeps
  the schema's constraints and changes nothing beyond its stated effect.
  They also prove how the handlers combine: add twice, add then delete, set
  then get, clear then look up.

The `scanned_at` column is filled by a default when the row is inserted.
The model passes that instant in as the parameter `now`, of type
`Timestamp`, whose contents no contract inspects. The new surrogate key of a
row is taken from a counter per table, as a database sequence hands keys out. Clearing the tables does not
reset the counter. The contracts take each new key from that counter; of the
real engine, only the key's freshness (no stored row has it) is meant to hold.

## Model

| member | source | states |
|---|---|---|
| `Models.FindVolume` | app.py:60 | `filter_by(barcode=b).first()`: None exactly when no row has barcode `b`; otherwise the index of a row with barcode `b`, and no earlier row has it |
| `Models.FindTotal` | app.py:113 | `filter_by(branch_id=b).first()`: None exactly when no row has branch `b`; otherwise the index of the first row with branch `b` |
| `Models.FindVolumeIsTheRow` | models.py:10 | because barcode is UNIQUE, the row the lookup returns is the only row with that barcode |
| `Models.FindTotalIsTheRow` | models.py:30 | because branch_id is UNIQUE, the row the lookup returns is the only row for that branch |
| `App.AddVolumeStep` | app.py:59-79 | if the barcode is already stored: duplicate response, status 400, both tables unchanged. Otherwise: exactly one row is appended, holding the four given values, the fresh key and `now`. The response is success with that key and time. Branch totals are unchanged |
| `App.DeleteVolumeStep` | app.py:85-93 | if no row has the barcode: not-found response, status 404, nothing changes. Otherwise: success, and the volumes table loses exactly one row, a row with that barcode. Branch totals are unchanged |
| `App.ClearStep` | app.py:100-104 | afterwards both the volumes table and the branch totals table are empty; the response is success |
| `App.SetBranchTotalStep` | app.py:113-126 | upsert. If the branch has a row, that row's total is overwritten in place, keeping its key, and no row is added. Otherwise one row is appended with a fresh key. Volumes are unchanged; the response is success |
| `App.BranchTotalResponse` | app.py:132-141 | not-found with a null total and status 404 exactly when no row has the branch. Otherwise success, status 200, the requested branch id, and the total stored in that branch's row |
| `App.AddVolumePreservesValid` | app.py:59-73 | adding keeps barcodes unique, keys unique and column widths respected. The key given to a new row is held by no stored row |
| `App.AddTwiceIsDuplicate` | app.py:60-62 | submitting a barcode right after it was added answers duplicate and leaves the tables exactly as they were |
| `App.AddThenDeleteRestores` | app.py:65-93 | adding an unseen barcode and then deleting it succeeds and restores both tables' rows |
| `App.DeleteVolumePreservesValid` | app.py:85-91 | deleting keeps every schema constraint |
| `App.DeleteRemovesExactlyThatRow` | app.py:85-93 | afterwards no row has the barcode. Every row with another barcode is still stored, and no row appears. The table shrinks by one exactly when the barcode was present |
| `App.ClearEmptiesBothTables` | app.py:100-102 | after clearing, the tables satisfy the schema, every branch lookup is not-found, and every delete is not-found |
| `App.SetBranchTotalPreservesValid` | app.py:113-124 | the upsert keeps branch ids unique, keys unique and widths respected |
| `App.SetBranchTotalUpserts` | app.py:113-124 | afterwards exactly one row has the branch, and it holds the new total. A row of any other branch is stored afterwards exactly when it was stored before |
| `App.SetThenGet` | app.py:113-141 | reading a branch right after setting its total to `n` answers success with `n` |
| `App.SetLeavesOtherBranches` | app.py:113-124 | setting one branch's total does not change the answer for any other branch |
| `App.EmptyTables` | app.py:147 | the freshly created database has empty tables and satisfies every schema constraint |
| `App.ScanScenario` | app.py:53-93 | scan B1 (success, 200), scan B1 again (duplicate, 400, one row B1 stored), delete B1 (success, no rows left) |
| `App.BranchTotalScenario` | app.py:106-141 | set BR1 to 20, then to 25: BR1 reads 25, from the one row BR1 has |
| `App.Store.constructor` | app.py:147 | a new store has empty tables and satisfies the schema |
| `App.Store.GetVolumes` | app.py:40-51 | the list has as many entries as there are rows. Each row appears exactly as often as its entry, which copies its id, barcode, branch, order, volume code and scan time. No order is promised |
| `App.Store.AddVolume` | app.py:54-79 | the new tables and the response are those of `AddVolumeStep` on the old tables; the schema constraints still hold |
| `App.Store.DeleteVolume` | app.py:82-93 | the new tables and the response are those of `DeleteVolumeStep` on the old tables; the schema constraints still hold |
| `App.Store.ClearVolumes` | app.py:96-104 | the new tables and the response are those of `ClearStep`; the schema constraints still hold |
| `App.Store.SetBranchTotal` | app.py:107-126 | the new tables and the response are those of `SetBranchTotalStep` on the old tables; the schema constraints still hold |
| `App.Store.GetBranchTotal` | app.py:129-141 | answers `BranchTotalResponse` of the current tables and changes nothing |

## Left out

- Flask routing, reading `request.json`, `jsonify` and the HTTP plumbing. A response is a `Response` value. Its `Status()` and `Message()` give the status code and the Portuguese message.
- The static route `/api/volumes/clear` takes precedence over a barcode literally named `clear` on DELETE. That is router behaviour outside this code.
- Request bodies missing a key (a `KeyError` in the handler) and JSON `null` values in NOT NULL columns. Input is assumed well formed, and strings in the model are never null.
- App.Store.AddVolume: requires the four values to fit their declared widths (50 and 10 characters) when they reach the insert, that is, when the barcode is not already stored. A stored barcode is answered as a duplicate whatever the other values are. What the database engine does with an over-long value at the insert depends on the engine, so that case is not modelled.
- App.Store.SetBranchTotal: requires the branch id to fit its declared width of 10 characters, for the same reason.
- Key comparison in `filter_by` (app.py:60, app.py:85, app.py:113, app.py:132): keys compare by exact string equality, as in PostgreSQL and SQLite. Case-insensitive or trailing-space-insensitive collations (such as MySQL's default) are not modelled; under them "b1" would be a duplicate of "B1".
- The integer width of the `id` and `total_volumes` columns: both are unbounded integers here.
- How the engine chooses a surrogate key. A per-table counter stands for it, and the contracts name the counter's value. Of the real engine only the key's freshness is meant; SQLite, for example, may reuse the highest key after that row is deleted.
- The value of `scanned_at` (`datetime.utcnow`) and its ISO-8601 formatting. It is an opaque `Timestamp` parameter, so "scan time is not before the request" is not stated.
- App.Store.GetVolumes: states no order of the list, because `Volume.query.all()` (app.py:40) has no ORDER BY.
- Sessions, commits and transactions. Each handler is one atomic step, so the check-then-insert race between concurrent duplicate submissions is outside this sequential model.
- The `index` template route, logging, configuration (secret key, database URL, pool options), `__repr__`, `db.create_all` beyond the empty initial tables, and `app.run`.
