/**
 * The cleaning step of the training pipeline: `clean_data` drops repeated rows
 * of the raw car table, keeping the first of each, and renames the raw column
 * headers to the names the rest of the pipeline uses.
 */
module DataCleaning {
  import opened Sequences

  /** One cell of the table; missing cells compare equal to each other, as the duplicate check treats them. */
  datatype Cell = Missing | Text(text: string) | Int(value: int)

  type Row = seq<Cell>

  // ---------------------------------------------------------------------------
  // Duplicate removal, keeping the first occurrence

  /** The positions of `s` whose value does not occur earlier, in increasing order. */
  function FirstPositions<T(==)>(s: seq<T>): (ps: seq<nat>)
    ensures |ps| <= |s|
    ensures forall k :: 0 <= k < |ps| ==> ps[k] < |s|
    ensures forall k, l :: 0 <= k < l < |ps| ==> ps[k] < ps[l]
  {
    if s == [] then []
    else
      var n := |s| - 1;
      FirstPositions(s[..n]) + if s[n] in s[..n] then [] else [n]
  }

  /** `s` without repeated values, keeping each value's first occurrence. */
  function Dedup<T(==)>(s: seq<T>): seq<T> {
    Select(s, FirstPositions(s))
  }

  /** The kept positions are exactly the first occurrences. */
  lemma {:induction false} FirstPositionsExact<T>(s: seq<T>, p: int)
    ensures p in FirstPositions(s) <==> 0 <= p < |s| && s[p] !in s[..p]
  {
    if s != [] {
      var n := |s| - 1;
      FirstPositionsExact(s[..n], p);
      if 0 <= p < n {
        assert s[..n][..p] == s[..p];
      }
    }
  }

  /** After deduplication no two rows are equal. */
  lemma DedupNoDuplicates<T>(s: seq<T>)
    ensures NoDuplicates(Dedup(s))
  {
    var ps, d := FirstPositions(s), Dedup(s);
    forall k, l | 0 <= k < l < |d| ensures d[k] != d[l] {
      FirstPositionsExact(s, ps[l]);
      assert s[ps[k]] == s[..ps[l]][ps[k]];
    }
  }

  /** Deduplication keeps every distinct row, adds none and never lengthens the table. */
  lemma DedupSameRows<T>(s: seq<T>)
    ensures forall x :: x in Dedup(s) <==> x in s
    ensures |Dedup(s)| <= |s|
  {
    var ps := FirstPositions(s);
    forall x | x in s ensures x in Dedup(s) {
      var p := FirstIndex(s, x);
      FirstPositionsExact(s, p);
      var k :| 0 <= k < |ps| && ps[k] == p;
      assert Dedup(s)[k] == x;
    }
  }

  /** The first position of `x` in `s`. */
  function FirstIndex<T(==)>(s: seq<T>, x: T): (p: nat)
    requires x in s
    ensures p < |s| && s[p] == x && x !in s[..p]
  {
    if s[0] == x then 0 else 1 + FirstIndex(s[1..], x)
  }

  /** A table that already has no repeated rows is left as it is. */
  lemma {:induction false} DedupOfDistinct<T>(s: seq<T>)
    requires NoDuplicates(s)
    ensures Dedup(s) == s
    ensures FirstPositions(s) == Range(|s|)
  {
    if s != [] {
      var n := |s| - 1;
      assert NoDuplicates(s[..n]);
      DedupOfDistinct(s[..n]);
      assert s[n] !in s[..n];
      assert FirstPositions(s) == Range(n) + [n];
    }
  }

  /** Dropping duplicates twice is the same as dropping them once. */
  lemma DedupIdempotent<T>(s: seq<T>)
    ensures Dedup(Dedup(s)) == Dedup(s)
  {
    DedupNoDuplicates(s);
    DedupOfDistinct(Dedup(s));
  }

  /**
   * `drop_duplicates` on the row list: a pass over the rows with the set of rows
   * seen so far; returns the kept rows and the positions they came from.
   */
  method DropDuplicateRows<T(==)>(rows: seq<T>) returns (kept: seq<T>, positions: seq<nat>)
    ensures positions == FirstPositions(rows)
    ensures kept == Dedup(rows)
  {
    var seen: set<T> := {};
    kept, positions := [], [];
    for i := 0 to |rows|
      invariant positions == FirstPositions(rows[..i])
      invariant kept == Select(rows, positions)
      invariant forall x :: x in seen <==> x in rows[..i]
    {
      assert rows[..i + 1][..i] == rows[..i];
      if rows[i] !in seen {
        kept, positions := kept + [rows[i]], positions + [i];
        seen := seen + {rows[i]};
      }
      assert rows[..i + 1] == rows[..i] + [rows[i]];
    }
    assert rows[..|rows|] == rows;
  }

  // ---------------------------------------------------------------------------
  // Column renaming

  /** The header map `clean_data` applies. */
  const CleaningRenames: map<string, string> := map[
    "name" := "car_name",
    "km_driven" := "kms_driven",
    "fuel" := "fuel_type",
    "seller_type" := "seller_type",
    "transmission" := "transmission_type",
    "owner" := "owner_type"]

  /** A column name after renaming with `m`: names `m` does not mention pass through. */
  function RenamedName(m: map<string, string>, name: string): string {
    if name in m then m[name] else name
  }

  /** A header after renaming with `m`, name by name. */
  function Renamed(m: map<string, string>, columns: seq<string>): seq<string> {
    seq(|columns|, i requires 0 <= i < |columns| => RenamedName(m, columns[i]))
  }

  /** `rename(columns=m)`: a pass over the header replacing each mapped name. */
  method RenameColumns(m: map<string, string>, columns: seq<string>) returns (renamed: seq<string>)
    ensures |renamed| == |columns|
    ensures forall i :: 0 <= i < |columns| && columns[i] in m ==> renamed[i] == m[columns[i]]
    ensures forall i :: 0 <= i < |columns| && columns[i] !in m ==> renamed[i] == columns[i]
    ensures renamed == Renamed(m, columns)
  {
    renamed := [];
    for i := 0 to |columns|
      invariant |renamed| == i
      invariant forall k :: 0 <= k < i ==> renamed[k] == RenamedName(m, columns[k])
    {
      var name := columns[i];
      if name in m {
        name := m[name];
      }
      renamed := renamed + [name];
    }
  }

  /** A header whose every name is unmapped or mapped to itself is left unchanged. */
  lemma RenameFixesUnmapped(m: map<string, string>, columns: seq<string>)
    requires forall i :: 0 <= i < |columns| ==> columns[i] !in m || m[columns[i]] == columns[i]
    ensures Renamed(m, columns) == columns
  {
  }

  /** Every image of the cleaning map is either no key or a key mapped to itself. */
  lemma CleaningImagesAreFixed()
    ensures forall k :: k in CleaningRenames ==>
      CleaningRenames[k] !in CleaningRenames || CleaningRenames[CleaningRenames[k]] == CleaningRenames[k]
  {
  }

  /** Applying the cleaning map to an already cleaned header changes nothing. */
  lemma CleaningRenameIdempotent(columns: seq<string>)
    ensures Renamed(CleaningRenames, Renamed(CleaningRenames, columns)) == Renamed(CleaningRenames, columns)
  {
  }

  /** `seller_type` maps to itself, so a header that uses none of the other five raw names is left unchanged. */
  lemma CleanedHeaderUnchanged(columns: seq<string>)
    requires forall i :: 0 <= i < |columns| ==> columns[i] !in {"name", "km_driven", "fuel", "transmission", "owner"}
    ensures Renamed(CleaningRenames, columns) == columns
  {
  }

  /** The raw CarDekho header becomes the cleaned header. */
  lemma RawHeaderRenamed()
    ensures Renamed(CleaningRenames,
      ["name", "year", "selling_price", "km_driven", "fuel", "seller_type", "transmission", "owner"])
      == ["car_name", "year", "selling_price", "kms_driven", "fuel_type", "seller_type", "transmission_type", "owner_type"]
  {
  }

  // ---------------------------------------------------------------------------
  // The table, changed in place

  /** A data frame: its header, its row labels and its rows. */
  class Table {
    var columns: seq<string>
    var index: seq<int>
    var rows: seq<Row>

    /** One label per row, and every row as wide as the header. */
    ghost predicate Valid()
      reads this
    {
      |index| == |rows| && forall r :: r in rows ==> |r| == |columns|
    }

    /** A freshly read table, labelled 0, 1, ..., n - 1. */
    constructor (header: seq<string>, body: seq<Row>)
      requires forall r :: r in body ==> |r| == |header|
      ensures Valid()
      ensures columns == header && rows == body && index == Range(|body|)
    {
      columns, rows := header, body;
      index := Range(|body|);
    }

    /** `drop_duplicates(inplace=True)`: the first of each repeated row stays, with its label. */
    method DropDuplicates()
      requires Valid()
      modifies this
      ensures Valid()
      ensures columns == old(columns)
      ensures rows == Dedup(old(rows))
      ensures index == Select(old(index), FirstPositions(old(rows)))
    {
      var kept, positions := DropDuplicateRows(rows);
      DedupSameRows(rows);
      index := Select(index, positions);
      rows := kept;
    }

    /** `rename(columns=m, inplace=True)`: the header changes name by name; labels and rows do not. */
    method Rename(m: map<string, string>)
      requires Valid()
      modifies this
      ensures Valid()
      ensures columns == Renamed(m, old(columns))
      ensures rows == old(rows) && index == old(index)
    {
      columns := RenameColumns(m, columns);
    }
  }

  /** `clean_data`: drop repeated rows, then rename the header; the same table comes back. */
  method CleanData(df: Table) returns (cleaned: Table)
    requires df.Valid()
    modifies df
    ensures cleaned == df && df.Valid()
    ensures df.rows == Dedup(old(df.rows))
    ensures df.index == Select(old(df.index), FirstPositions(old(df.rows)))
    ensures df.columns == Renamed(CleaningRenames, old(df.columns))
  {
    df.DropDuplicates();
    df.Rename(CleaningRenames);
    cleaned := df;
  }
}
