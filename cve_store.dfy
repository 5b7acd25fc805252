/**
 * The `cve_data` table and its two upserts: the change-detecting one of
 * internal/collector/collector.go and the plain overwrite of
 * internal/collector/database.go and main.go.
 */
module CveStore {
  import opened Wrappers
  import opened Nvd

  /** A stored row beyond its key: the 13 tracked columns and `updated_at`. */
  datatype CveRow = CveRow(cols: CveColumns, updatedAt: Timestamp)

  // ---------------------------------------------------------------------
  // The explicit casts of the change-detecting query
  // ---------------------------------------------------------------------

  /** An explicit cast to VARCHAR(n), which keeps the first n characters. */
  function Truncate(s: string, n: nat): (r: string)
    ensures |r| <= n && r <= s
    ensures |s| <= n ==> r == s
  {
    if |s| <= n then s else s[..n]
  }

  /** `$1::VARCHAR(20)`: the key the change-detecting query stores under. */
  function CastKey(id: string): (k: string)
    ensures |k| <= 20
    ensures |id| <= 20 ==> k == id
  {
    Truncate(id, 20)
  }

  /** Every string column fits the width its cast gives it. */
  predicate FitsWidths(c: CveColumns) {
    |c.cvssV3Vector| <= 100 && |c.cvssV3BaseSeverity| <= 20 &&
    |c.cvssV4Vector| <= 255 && |c.cvssV4BaseSeverity| <= 20
  }

  /** The casts `$6::VARCHAR(100)`, `$8::VARCHAR(20)`, `$9::VARCHAR(255)` and `$11::VARCHAR(20)`. */
  function CastColumns(c: CveColumns): (r: CveColumns)
    ensures FitsWidths(r)
    ensures FitsWidths(c) ==> r == c
    ensures r.cvssV3Vector <= c.cvssV3Vector && r.cvssV4Vector <= c.cvssV4Vector
    ensures r.(cvssV3Vector := c.cvssV3Vector, cvssV3BaseSeverity := c.cvssV3BaseSeverity,
               cvssV4Vector := c.cvssV4Vector, cvssV4BaseSeverity := c.cvssV4BaseSeverity) == c
  {
    c.(cvssV3Vector := Truncate(c.cvssV3Vector, 100),
       cvssV3BaseSeverity := Truncate(c.cvssV3BaseSeverity, 20),
       cvssV4Vector := Truncate(c.cvssV4Vector, 255),
       cvssV4BaseSeverity := Truncate(c.cvssV4BaseSeverity, 20))
  }

  // ---------------------------------------------------------------------
  // The change test of the ON CONFLICT branch
  // ---------------------------------------------------------------------

  /** The 13 `IS DISTINCT FROM` tests, arrays compared element by element in order. */
  predicate TrackedDiffers(stored: CveColumns, incoming: CveColumns) {
    stored.publishedDate != incoming.publishedDate ||
    stored.lastModifiedDate != incoming.lastModifiedDate ||
    stored.vulnerabilityStatus != incoming.vulnerabilityStatus ||
    stored.description != incoming.description ||
    stored.cvssV3Vector != incoming.cvssV3Vector ||
    stored.cvssV3BaseScore != incoming.cvssV3BaseScore ||
    stored.cvssV3BaseSeverity != incoming.cvssV3BaseSeverity ||
    stored.cvssV4Vector != incoming.cvssV4Vector ||
    stored.cvssV4BaseScore != incoming.cvssV4BaseScore ||
    stored.cvssV4BaseSeverity != incoming.cvssV4BaseSeverity ||
    stored.affectedProducts != incoming.affectedProducts ||
    stored.referenceLinks != incoming.referenceLinks ||
    stored.cweIds != incoming.cweIds
  }

  /** The 13 tests together detect exactly a difference in the row's columns. */
  lemma TrackedDiffersIffUnequal(a: CveColumns, b: CveColumns)
    ensures TrackedDiffers(a, b) <==> a != b
  {
  }

  // ---------------------------------------------------------------------
  // The two upserts as table transformations
  // ---------------------------------------------------------------------

  /** The table after an upsert and the `changed` flag the query returns. */
  datatype Stored = Stored(rows: map<string, CveRow>, changed: bool)

  /**
   * The change-detecting upsert: insert with `updated_at = now`, or replace
   * the 13 columns and move `updated_at` to `now` only when one of them
   * differs; `changed` is `inserted OR updated_at = now`.
   */
  function Upsert(rows: map<string, CveRow>, key: string, cols: CveColumns, now: Timestamp): (u: Stored)
    ensures key in u.rows && u.rows[key].cols == cols
    ensures u.rows.Keys == rows.Keys + {key}
    ensures forall k :: k in rows && k != key ==> u.rows[k] == rows[k]
    ensures key !in rows ==> u.changed && u.rows[key].updatedAt == now
    ensures key in rows && TrackedDiffers(rows[key].cols, cols) ==> u.changed && u.rows[key].updatedAt == now
    ensures key in rows && !TrackedDiffers(rows[key].cols, cols) ==>
              u.rows[key].updatedAt == rows[key].updatedAt && u.changed == (rows[key].updatedAt == now)
    ensures key in rows && !TrackedDiffers(rows[key].cols, cols) && rows[key].updatedAt != now ==>
              !u.changed && u.rows == rows
  {
    if key !in rows then Stored(rows[key := CveRow(cols, now)], true)
    else
      var updatedAt := if TrackedDiffers(rows[key].cols, cols) then now else rows[key].updatedAt;
      Stored(rows[key := CveRow(cols, updatedAt)], updatedAt == now)
  }

  /**
   * The overwrite upsert: insert, or replace the 13 columns and leave
   * `updated_at` as it was. The INSERT does not name `updated_at`, so a new
   * row gets the column's default, which no source file shows; `initial`
   * stands for that default.
   */
  function Overwrite(rows: map<string, CveRow>, key: string, cols: CveColumns, initial: Timestamp): (r: map<string, CveRow>)
    ensures key in r && r[key].cols == cols
    ensures r.Keys == rows.Keys + {key}
    ensures forall k :: k in rows && k != key ==> r[k] == rows[k]
    ensures key in rows ==> r[key].updatedAt == rows[key].updatedAt
    ensures key !in rows ==> r[key].updatedAt == initial
  {
    var updatedAt := if key in rows then rows[key].updatedAt else initial;
    rows[key := CveRow(cols, updatedAt)]
  }

  /** Both upserts leave the same columns in the table; they differ only in `updated_at`. */
  lemma UpsertsAgreeOnColumns(rows: map<string, CveRow>, key: string, cols: CveColumns, now: Timestamp)
    ensures Upsert(rows, key, cols, now).rows.Keys == Overwrite(rows, key, cols, now).Keys
    ensures forall k :: k in Overwrite(rows, key, cols, now) ==>
              Upsert(rows, key, cols, now).rows[k].cols == Overwrite(rows, key, cols, now)[k].cols
  {
  }

  /**
   * Storing the same columns twice, the clock having moved on, changes
   * nothing the second time and reports no change.
   */
  lemma UpsertIdempotent(rows: map<string, CveRow>, key: string, cols: CveColumns, t1: Timestamp, t2: Timestamp)
    requires t1 < t2
    requires key in rows ==> rows[key].updatedAt < t2
    ensures var u1 := Upsert(rows, key, cols, t1);
            Upsert(u1.rows, key, cols, t2) == Stored(u1.rows, false)
  {
    var u1 := Upsert(rows, key, cols, t1);
    assert !TrackedDiffers(u1.rows[key].cols, cols);
    assert u1.rows[key].updatedAt <= t1 || (key in rows && u1.rows[key].updatedAt == rows[key].updatedAt);
  }

  /** A reordered array alone is a change: the row is re-stamped and reported changed. */
  lemma ReorderedProductsAreAChange(rows: map<string, CveRow>, key: string, cols: CveColumns, now: Timestamp)
    requires key in rows
    requires rows[key].cols == cols.(affectedProducts := rows[key].cols.affectedProducts)
    requires multiset(rows[key].cols.affectedProducts) == multiset(cols.affectedProducts)
    requires rows[key].cols.affectedProducts != cols.affectedProducts
    ensures Upsert(rows, key, cols, now).changed
    ensures Upsert(rows, key, cols, now).rows[key] == CveRow(cols, now)
  {
  }

  /** A new `lastModified` alone is a change. */
  lemma LastModifiedAloneIsAChange(rows: map<string, CveRow>, key: string, cols: CveColumns, now: Timestamp)
    requires key in rows
    requires rows[key].cols.lastModifiedDate != cols.lastModifiedDate
    ensures Upsert(rows, key, cols, now).changed
    ensures Upsert(rows, key, cols, now).rows[key].updatedAt == now
  {
  }

  // ---------------------------------------------------------------------
  // The table
  // ---------------------------------------------------------------------

  /** The `cve_data` table, keyed by `cve_id`. */
  class CveTable {
    var rows: map<string, CveRow>

    constructor ()
      ensures rows == map[]
    {
      rows := map[];
    }

    /**
     * storeCVEData of internal/collector/collector.go. `dbError` is the error
     * the query reports, if any; a failed statement changes nothing.
     */
    method Store(cve: CveData, now: Timestamp, dbError: Option<string>) returns (changed: bool, err: Option<string>)
      modifies this
      ensures dbError.Some? ==> !changed && err == dbError && rows == old(rows)
      ensures dbError.None? ==>
                err.None? && Stored(rows, changed) == Upsert(old(rows), CastKey(cve.id), CastColumns(Columns(cve)), now)
    {
      if dbError.Some? {
        return false, dbError;
      }
      var u := Upsert(rows, CastKey(cve.id), CastColumns(Columns(cve)), now);
      rows := u.rows;
      return u.changed, None;
    }

    /** storeCVEData of internal/collector/database.go and insertCVEData of main.go. */
    method StoreOverwrite(cve: CveData, initial: Timestamp, dbError: Option<string>) returns (err: Option<string>)
      modifies this
      ensures err == dbError
      ensures dbError.Some? ==> rows == old(rows)
      ensures dbError.None? ==> rows == Overwrite(old(rows), cve.id, Columns(cve), initial)
    {
      if dbError.None? {
        rows := Overwrite(rows, cve.id, Columns(cve), initial);
      }
      return dbError;
    }
  }
}
