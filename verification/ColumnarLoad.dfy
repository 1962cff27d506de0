/** Bulk load of a columnar file: batches of columns become rows of one INSERT, in one
    transaction. */
module ColumnarLoad {
  import opened Prelude

  type Row<V> = seq<V>

  /** One record batch: named columns of one length. */
  datatype Batch<V> = Batch(numRows: nat, columns: map<string, seq<V>>)

  datatype Error = UnknownMapped(columns: seq<string>) | ExtraConflict(column: string) | BadIdentifier | DatabaseFailed

  // ---- columns -------------------------------------------------------------------

  function Renamed(mapping: map<string, string>, c: string): string {
    if c in mapping then mapping[c] else c
  }

  function RenamedAll(mapping: map<string, string>, cols: seq<string>): (r: seq<string>)
    ensures |r| == |cols|
  {
    seq(|cols|, i requires 0 <= i < |cols| => Renamed(mapping, cols[i]))
  }

  /** The mapped names that are not source columns, in mapping order. */
  method CheckColumnMapping(sourceCols: seq<string>, mappedNames: seq<string>) returns (r: Option<Error>)
    ensures r.None? <==> forall i :: 0 <= i < |mappedNames| ==> mappedNames[i] in sourceCols
    ensures r.Some? ==> r.value.UnknownMapped? && r.value.columns != []
                        && forall c :: c in r.value.columns <==> c in mappedNames && c !in sourceCols
  {
    var unknown: seq<string> := [];
    for i := 0 to |mappedNames|
      invariant forall c :: c in unknown <==> c in mappedNames[..i] && c !in sourceCols
    {
      if mappedNames[i] !in sourceCols { unknown := unknown + [mappedNames[i]]; }
    }
    assert mappedNames[..|mappedNames|] == mappedNames;
    if unknown != [] {
      assert unknown[0] in unknown;
      return Some(UnknownMapped(unknown));
    }
    r := None;
  }

  function Kept(cols: seq<string>, mapping: map<string, string>, target: set<string>): seq<string> {
    if cols == [] then []
    else (if Renamed(mapping, cols[0]) in target then [cols[0]] else []) + Kept(cols[1..], mapping, target)
  }

  lemma {:induction false} KeptIsSubsequence(cols: seq<string>, mapping: map<string, string>, target: set<string>)
    ensures forall c :: c in Kept(cols, mapping, target) <==> c in cols && (if c in mapping then mapping[c] else c) in target
    ensures Distinct(cols) ==> Distinct(Kept(cols, mapping, target))
  {
    if cols != [] { KeptIsSubsequence(cols[1..], mapping, target); }
  }

  /** Column by column, in the order of the header. */
  lemma {:induction false} KeptSplit(before: seq<string>, c: string, after: seq<string>, mapping: map<string, string>, target: set<string>)
    ensures Kept(before + [c] + after, mapping, target)
         == Kept(before, mapping, target) + Kept([c], mapping, target) + Kept(after, mapping, target)
  {
    var all := before + [c] + after;
    if before == [] {
      assert all == [c] + after && all[1..] == after;
    } else {
      assert all[1..] == before[1..] + [c] + after;
      KeptSplit(before[1..], c, after, mapping, target);
    }
  }

  /** The kept columns are all those of a name or none, so without repeats they repeat no header name. */
  ghost predicate AllCopies(cols: seq<string>, kept: seq<string>) {
    Distinct(kept) ==> forall c :: c in kept ==> Once(cols, c)
  }

  lemma {:induction false} KeptAllCopies(cols: seq<string>, mapping: map<string, string>, target: set<string>)
    ensures AllCopies(cols, Kept(cols, mapping, target))
  {
    if cols != [] && Distinct(Kept(cols, mapping, target)) {
      var kept, rest := Kept(cols, mapping, target), Kept(cols[1..], mapping, target);
      KeptAllCopies(cols[1..], mapping, target);
      KeptIsSubsequence(cols[1..], mapping, target);
      if kept == [cols[0]] + rest { assert cols[0] !in rest by { if cols[0] in rest { HeadRepeats(cols[0], rest); } } }
      assert Distinct(rest) by { assert rest == kept[|kept| - |rest|..]; }
      forall c | c in kept ensures Once(cols, c) {
        OnceMore(cols, c);
      }
    }
  }

  lemma HeadRepeats(c: string, rest: seq<string>)
    requires c in rest
    ensures !Distinct([c] + rest)
  {
    var i :| 0 <= i < |rest| && rest[i] == c;
    assert ([c] + rest)[i + 1] == ([c] + rest)[0];
  }

  lemma OnceMore(cols: seq<string>, c: string)
    requires cols != []
    requires if c == cols[0] then c !in cols[1..] else Once(cols[1..], c)
    ensures Once(cols, c)
  {
    forall i, j | 0 <= i < |cols| && 0 <= j < |cols| && cols[i] == c && cols[j] == c ensures i == j {
      if i > 0 { assert cols[1..][i - 1] == c; }
      if j > 0 { assert cols[1..][j - 1] == c; }
    }
  }

  /** `_build_destination_columns`: renamed source columns, then the extra names. */
  method BuildDestinationColumns(sourceCols: seq<string>, mapping: map<string, string>, extraNames: seq<string>)
    returns (r: Result<seq<string>, Error>)
    ensures r.Ok? <==> Distinct(extraNames) && forall e :: e in extraNames ==> e !in RenamedAll(mapping, sourceCols)
    ensures r.Ok? ==> r.value == RenamedAll(mapping, sourceCols) + extraNames
    ensures r.Err? ==> r.error.ExtraConflict? && r.error.column in extraNames
  {
    var dest := RenamedAll(mapping, sourceCols);
    for i := 0 to |extraNames|
      invariant dest == RenamedAll(mapping, sourceCols) + extraNames[..i]
      invariant Distinct(extraNames[..i])
      invariant forall e :: e in extraNames[..i] ==> e !in RenamedAll(mapping, sourceCols)
    {
      assert extraNames[..i + 1] == extraNames[..i] + [extraNames[i]];
      if extraNames[i] in dest {
        assert extraNames[i] in RenamedAll(mapping, sourceCols) || extraNames[i] in extraNames[..i];
        return Err(ExtraConflict(extraNames[i]));
      }
      dest := dest + [extraNames[i]];
    }
    assert extraNames[..|extraNames|] == extraNames;
    r := Ok(dest);
  }

  // ---- columns to rows --------------------------------------------------------------

  /** Python's zip over columns: rows up to the shortest column, none without columns. */
  function Shortest<V>(cols: seq<seq<V>>): (n: nat)
    requires cols != []
    ensures forall c :: c in cols ==> n <= |c|
    ensures exists c :: c in cols && n == |c|
  {
    if |cols| == 1 then |cols[0]|
    else
      var rest := Shortest(cols[1..]);
      if |cols[0]| < rest then |cols[0]| else rest
  }

  function Zip<V>(cols: seq<seq<V>>): seq<Row<V>> {
    if cols == [] then []
    else
      var n := Shortest(cols);
      seq(n, r requires 0 <= r < n => seq(|cols|, c requires 0 <= c < |cols| => cols[c][r]))
  }

  /** What the file stores: rows over the leaf names its header lists, which may repeat. The names of
      whole columns are `whole`; a leaf inside a nested column is not among them. */
  datatype Source<V> = Source(names: seq<string>, whole: set<string>, rows: seq<Row<V>>)

  ghost predicate ValidSource<V>(s: Source<V>) {
    forall i :: 0 <= i < |s.rows| ==> |s.rows[i]| == |s.names|
  }

  ghost predicate Once(names: seq<string>, c: string) {
    forall i, j :: 0 <= i < |names| && 0 <= j < |names| && names[i] == c && names[j] == c ==> i == j
  }

  /** The batch holds rows lo..hi of the source by the names of whole columns; what it holds under a
      name that the header lists twice is left open. */
  ghost predicate BatchOf<V>(b: Batch<V>, s: Source<V>, lo: nat, hi: nat)
    requires ValidSource(s)
  {
    && lo <= hi <= |s.rows| && b.numRows == hi - lo
    && (forall c :: 0 <= c < |s.names| ==> (s.names[c] in b.columns <==> s.names[c] in s.whole))
    && (forall c :: 0 <= c < |s.names| && s.names[c] in s.whole ==> |b.columns[s.names[c]]| == b.numRows)
    && (forall c :: 0 <= c < |s.names| && s.names[c] in s.whole && Once(s.names, s.names[c]) ==>
          forall r :: 0 <= r < b.numRows ==> b.columns[s.names[c]][r] == s.rows[lo + r][c])
  }

  /** The kept names are header names, each of one whole column. */
  ghost predicate Loadable<V>(s: Source<V>, kept: seq<string>) {
    forall c :: c in kept ==> c in s.names && c in s.whole && Once(s.names, c)
  }

  /** The batches cut the source, in order, at the given row numbers. */
  ghost predicate BatchesOf<V>(bs: seq<Batch<V>>, s: Source<V>, cuts: seq<nat>)
    requires ValidSource(s)
  {
    && |cuts| == |bs| + 1 && cuts[0] == 0 && cuts[|bs|] == |s.rows|
    && forall i :: 0 <= i < |bs| ==> BatchOf(bs[i], s, cuts[i], cuts[i + 1])
  }

  function ColumnIndex(names: seq<string>, c: string): (i: nat)
    requires c in names
    ensures i < |names| && names[i] == c
  {
    if names[0] == c then 0 else 1 + ColumnIndex(names[1..], c)
  }

  /** Row by row: the kept values of a source row, followed by the extra values. */
  function LoadedRow<V>(names: seq<string>, row: Row<V>, kept: seq<string>, extra: seq<V>): Row<V>
    requires |row| == |names| && forall c :: c in kept ==> c in names
  {
    seq(|kept|, i requires 0 <= i < |kept| => row[ColumnIndex(names, kept[i])]) + extra
  }

  function LoadedRows<V>(s: Source<V>, n: nat, kept: seq<string>, extra: seq<V>): (r: seq<Row<V>>)
    requires n <= |s.rows| && (forall i :: 0 <= i < |s.rows| ==> |s.rows[i]| == |s.names|)
    requires forall c :: c in kept ==> c in s.names
    ensures |r| == n
  {
    seq(n, i requires 0 <= i < n => LoadedRow(s.names, s.rows[i], kept, extra))
  }

  lemma LoadedInPieces<V>(s: Source<V>, lo: nat, hi: nat, kept: seq<string>, extra: seq<V>)
    requires ValidSource(s) && lo <= hi <= |s.rows| && forall c :: c in kept ==> c in s.names
    ensures LoadedRows(s, hi, kept, extra) == LoadedRows(s, lo, kept, extra) + LoadedRows(s, hi, kept, extra)[lo..]
  {
  }

  /** The columns of one batch: the kept ones, then each extra value repeated. */
  ghost predicate ColumnsOf<V>(b: Batch<V>, kept: seq<string>, extra: seq<V>, cols: seq<seq<V>>) {
    && |cols| == |kept| + |extra|
    && (forall i :: 0 <= i < |kept| ==> kept[i] in b.columns && cols[i] == b.columns[kept[i]])
    && (forall i :: 0 <= i < |extra| ==> cols[|kept| + i] == seq(b.numRows, _ => extra[i]))
  }

  /** One cell of a batch's columns is the cell of the row-by-row load. */
  lemma CellIsLoaded<V>(b: Batch<V>, s: Source<V>, lo: nat, hi: nat, kept: seq<string>, extra: seq<V>, cols: seq<seq<V>>,
                        c: nat, r: nat)
    requires ValidSource(s) && BatchOf(b, s, lo, hi) && Loadable(s, kept)
    requires ColumnsOf(b, kept, extra, cols) && c < |cols| && r < b.numRows
    ensures |cols[c]| == b.numRows && cols[c][r] == LoadedRow(s.names, s.rows[lo + r], kept, extra)[c]
  {
    if c < |kept| {
      var k := ColumnIndex(s.names, kept[c]);
      assert b.columns[s.names[k]][r] == s.rows[lo + r][k];
    } else {
      assert cols[|kept| + (c - |kept|)] == seq(b.numRows, _ => extra[c - |kept|]);
    }
  }

  lemma ColumnLengths<V>(b: Batch<V>, s: Source<V>, lo: nat, hi: nat, kept: seq<string>, extra: seq<V>, cols: seq<seq<V>>)
    requires ValidSource(s) && BatchOf(b, s, lo, hi) && Loadable(s, kept)
    requires ColumnsOf(b, kept, extra, cols)
    ensures forall c :: 0 <= c < |cols| ==> |cols[c]| == b.numRows
  {
    forall c | 0 <= c < |cols| ensures |cols[c]| == b.numRows {
      if c < |kept| {
        var k := ColumnIndex(s.names, kept[c]);
        assert s.names[k] == kept[c];
      } else {
        assert cols[|kept| + (c - |kept|)] == seq(b.numRows, _ => extra[c - |kept|]);
      }
    }
  }

  /** Transposing one batch gives the rows of the row-by-row load. */
  lemma ZipIsLoaded<V>(b: Batch<V>, s: Source<V>, lo: nat, hi: nat, kept: seq<string>, extra: seq<V>, cols: seq<seq<V>>)
    requires ValidSource(s) && BatchOf(b, s, lo, hi) && Loadable(s, kept)
    requires |kept| + |extra| > 0 && ColumnsOf(b, kept, extra, cols)
    ensures Zip(cols) == LoadedRows(s, hi, kept, extra)[lo..]
  {
    ColumnLengths(b, s, lo, hi, kept, extra, cols);
    assert Shortest(cols) == b.numRows;
    var want := LoadedRows(s, hi, kept, extra)[lo..];
    forall r | 0 <= r < b.numRows ensures Zip(cols)[r] == want[r] {
      var row := LoadedRow(s.names, s.rows[lo + r], kept, extra);
      assert want[r] == row;
      forall c | 0 <= c < |cols| ensures Zip(cols)[r][c] == row[c] {
        CellIsLoaded(b, s, lo, hi, kept, extra, cols, c, r);
      }
    }
  }

  lemma BatchExtends<V>(b: Batch<V>, s: Source<V>, lo: nat, hi: nat, kept: seq<string>, extra: seq<V>, cols: seq<seq<V>>)
    requires ValidSource(s) && BatchOf(b, s, lo, hi) && Loadable(s, kept)
    requires |kept| + |extra| > 0 && ColumnsOf(b, kept, extra, cols)
    ensures LoadedRows(s, lo, kept, extra) + Zip(cols) == LoadedRows(s, hi, kept, extra)
  {
    ZipIsLoaded(b, s, lo, hi, kept, extra, cols);
    LoadedInPieces(s, lo, hi, kept, extra);
  }

  /** Where the destination names are distinct, each value is stored under the name of its own
      column: a kept source column under its mapped name, an extra value under its own. */
  lemma ValuesUnderTheirNames<V>(names: seq<string>, row: Row<V>, mapping: map<string, string>,
                                 kept: seq<string>, extraNames: seq<string>, extra: seq<V>)
    requires |row| == |names| && (forall c :: c in kept ==> c in names)
    requires |extra| == |extraNames| && Distinct(RenamedAll(mapping, kept) + extraNames)
    ensures var dest := RenamedAll(mapping, kept) + extraNames;
            var stored := LoadedRow(names, row, kept, extra);
            && |stored| == |dest|
            && (forall c :: c in kept ==>
                  var name := if c in mapping then mapping[c] else c;
                  name in dest && stored[ColumnIndex(dest, name)] == row[ColumnIndex(names, c)])
            && (forall k :: 0 <= k < |extraNames| ==>
                  extraNames[k] in dest && stored[ColumnIndex(dest, extraNames[k])] == extra[k])
  {
    var dest := RenamedAll(mapping, kept) + extraNames;
    var stored := LoadedRow(names, row, kept, extra);
    forall c | c in kept
      ensures Renamed(mapping, c) in dest && stored[ColumnIndex(dest, Renamed(mapping, c))] == row[ColumnIndex(names, c)]
    {
      var i := ColumnIndex(kept, c);
      assert dest[i] == Renamed(mapping, c);
      var j := ColumnIndex(dest, Renamed(mapping, c));
      assert dest[i] == dest[j];
    }
    forall k | 0 <= k < |extraNames|
      ensures extraNames[k] in dest && stored[ColumnIndex(dest, extraNames[k])] == extra[k]
    {
      assert dest[|kept| + k] == extraNames[k];
      var j := ColumnIndex(dest, extraNames[k]);
      assert dest[|kept| + k] == dest[j];
    }
  }

  // ---- identifiers -------------------------------------------------------------------------

  predicate IsIdentifierChar(c: char) { 'a' <= c <= 'z' || 'A' <= c <= 'Z' || '0' <= c <= '9' || c == '_' }

  predicate IsWordIdentifier(s: string) {
    s != "" && !('0' <= s[0] <= '9') && forall i :: 0 <= i < |s| ==> IsIdentifierChar(s[i])
  }

  /** The pattern's `$` also matches before one final line break. */
  predicate ValidIdentifier(s: string) {
    IsWordIdentifier(s) || (s != "" && s[|s| - 1] == '\n' && IsWordIdentifier(s[..|s| - 1]))
  }

  /** Letters, digits and underscores, not beginning with a digit. */
  ghost predicate BareName(s: string) {
    && s != "" && (s[0] < '0' || s[0] > '9')
    && forall c :: c in s ==> 'a' <= c <= 'z' || 'A' <= c <= 'Z' || '0' <= c <= '9' || c == '_'
  }

  lemma BareNameIs(s: string)
    ensures IsWordIdentifier(s) <==> BareName(s)
  {
    if BareName(s) { assert forall i :: 0 <= i < |s| ==> s[i] in s; }
  }

  /** The check promises a bare name; it lets through just those, and those followed by a line break. */
  lemma TrailingBreakPasses(s: string)
    ensures ValidIdentifier(s) <==> BareName(s) || exists name :: BareName(name) && s == name + "\n"
    ensures ValidIdentifier(s) ==> (BareName(s) <==> s[|s| - 1] != '\n')
    ensures ValidIdentifier("loss\n") && !BareName("loss\n")
  {
    assert "loss\n"[..4] == "loss" && "loss\n"[4] == '\n' && '\n' in "loss\n";
    BareNameIs(s);
    if s != "" && s[|s| - 1] == '\n' {
      BareNameIs(s[..|s| - 1]);
      assert s == s[..|s| - 1] + "\n" && '\n' in s;
    }
    if name :| BareName(name) && s == name + "\n" { assert s[..|s| - 1] == name; }
  }

  // ---- the transaction ------------------------------------------------------------------

  /** What the caller asks for, and the target columns read when unmapped ones are dropped. */
  datatype Request<V> = Request(schema: string, table: string, mappedNames: seq<string>, mapping: map<string, string>,
                                targetColumns: Option<set<string>>, extraNames: seq<string>, extra: seq<V>)

  ghost predicate ValidRequest<V>(q: Request<V>) {
    |q.extra| == |q.extraNames| && Distinct(q.extraNames) && forall c :: c in q.mappedNames <==> c in q.mapping
  }

  function KeptColumns<V>(names: seq<string>, q: Request<V>): seq<string> {
    if q.targetColumns.None? then names else Kept(names, q.mapping, q.targetColumns.value)
  }

  function Destination<V>(names: seq<string>, q: Request<V>): seq<string> {
    RenamedAll(q.mapping, KeptColumns(names, q)) + q.extraNames
  }

  /** The request is refused before any row is sent unless this holds. */
  ghost predicate WellFormed<V>(names: seq<string>, q: Request<V>) {
    && (forall c :: c in q.mappedNames ==> c in names)
    && (forall e :: e in q.extraNames ==> e !in RenamedAll(q.mapping, KeptColumns(names, q)))
    && ValidIdentifier(q.schema) && ValidIdentifier(q.table)
    && forall c :: c in Destination(names, q) ==> ValidIdentifier(c)
  }

  /** A request is well formed exactly when every mapped name is a source column, no extra name is taken by
      a column kept, under its mapped name, and schema, table, columns and extra names all pass the check. */
  lemma WellFormedIff<V>(names: seq<string>, q: Request<V>)
    ensures q.targetColumns == None ==> KeptColumns(names, q) == names
    ensures forall target :: q.targetColumns == Some(target) ==> KeptColumns(names, q) == Kept(names, q.mapping, target)
    ensures var stored := set c | c in KeptColumns(names, q) :: if c in q.mapping then q.mapping[c] else c;
            var extras := set e | e in q.extraNames;
            WellFormed(names, q) <==>
            && (forall c :: c in q.mappedNames ==> c in names) && stored !! extras
            && forall c :: c in stored + extras + {q.schema, q.table} ==> ValidIdentifier(c)
  {
    var kept := KeptColumns(names, q);
    var stored := set c | c in kept :: if c in q.mapping then q.mapping[c] else c;
    forall c ensures c in RenamedAll(q.mapping, kept) <==> c in stored {
      if c in stored {
        var k :| k in kept && c == if k in q.mapping then q.mapping[k] else k;
        var i :| 0 <= i < |kept| && kept[i] == k;
        assert RenamedAll(q.mapping, kept)[i] == c;
      }
    }
    assert forall c :: c in Destination(names, q) <==> c in RenamedAll(q.mapping, kept) || c in q.extraNames;
  }

  /** An INSERT that names no column, or one column twice, is refused by the database. */
  predicate Insertable(dest: seq<string>) { dest != [] && Distinct(dest) }

  /** One name for one name: equal kept columns have equal destinations. */
  ghost predicate RenamesAlike(kept: seq<string>, dest: seq<string>) {
    |kept| <= |dest| && forall i, j :: 0 <= i < j < |kept| && kept[i] == kept[j] ==> dest[i] == dest[j]
  }

  lemma DistinctKept(kept: seq<string>, dest: seq<string>)
    requires RenamesAlike(kept, dest) && Distinct(dest)
    ensures Distinct(kept)
  {
  }

  lemma WholeColumns<V>(b: Batch<V>, s: Source<V>, lo: nat, hi: nat, kept: seq<string>)
    requires ValidSource(s) && BatchOf(b, s, lo, hi) && forall c :: c in kept ==> c in s.names
    ensures forall c :: c in kept ==> (c in b.columns <==> c in s.whole)
  {
    forall c | c in kept ensures c in b.columns <==> c in s.whole {
      var i := ColumnIndex(s.names, c);
    }
  }

  /** The target table of one connection: committed rows, and those of the open transaction. */
  class Table<V> {
    var committed: seq<Row<V>>
    var pending: seq<Row<V>>

    /** `upload_parquet`: all rows of the file in one transaction, or none. */
    method UploadParquet(q: Request<V>, names: seq<string>, batches: seq<Batch<V>>, failAt: Option<nat>,
                         ghost s: Source<V>, ghost cuts: seq<nat>)
      returns (r: Result<nat, Error>)
      requires ValidSource(s) && s.names == names && BatchesOf(batches, s, cuts) && ValidRequest(q)
      requires pending == []
      modifies this
      ensures pending == []
      ensures r.Ok? <==>
                && WellFormed(names, q)
                && (s.rows == [] || (Insertable(Destination(names, q)) && forall c :: c in KeptColumns(names, q) ==> c in s.whole))
                && (failAt.None? || failAt.value > |batches|)
      ensures r.Ok? ==>
                && (forall c :: c in KeptColumns(names, q) ==> c in names)
                && r.value == |s.rows|
                && committed == old(committed) + LoadedRows(s, |s.rows|, KeptColumns(names, q), q.extra)
      ensures r.Err? ==> committed == old(committed)
      ensures r.Err? ==>
                if exists c :: c in q.mappedNames && c !in names then r.error.UnknownMapped?
                else if exists e :: e in q.extraNames && e in RenamedAll(q.mapping, KeptColumns(names, q)) then r.error.ExtraConflict?
                else if WellFormed(names, q) then r.error.DatabaseFailed? else r.error.BadIdentifier?
    {
      var unknown := CheckColumnMapping(names, q.mappedNames);
      if unknown.Some? { return Err(unknown.value); }
      var kept := KeptColumns(names, q);
      if q.targetColumns.Some? {
        KeptIsSubsequence(names, q.mapping, q.targetColumns.value);
        KeptAllCopies(names, q.mapping, q.targetColumns.value);
      }
      var dest := BuildDestinationColumns(kept, q.mapping, q.extraNames);
      if dest.Err? { return Err(dest.error); }
      if !ValidIdentifier(q.schema) || !ValidIdentifier(q.table) { return Err(BadIdentifier); }
      for i := 0 to |dest.value|
        invariant forall c :: c in dest.value[..i] ==> ValidIdentifier(c)
      {
        if !ValidIdentifier(dest.value[i]) { return Err(BadIdentifier); }
      }
      assert dest.value[..|dest.value|] == dest.value;
      r := Stream(batches, dest.value, kept, q.extra, failAt, s, cuts);
    }

    /** None where the batch has no column of a kept name. */
    static method RowColumns(b: Batch<V>, kept: seq<string>, extra: seq<V>) returns (r: Option<seq<seq<V>>>)
      ensures r.Some? <==> forall c :: c in kept ==> c in b.columns
      ensures r.Some? ==> ColumnsOf(b, kept, extra, r.value)
    {
      var columns: seq<seq<V>> := [];
      for k := 0 to |kept|
        invariant |columns| == k
        invariant forall m :: 0 <= m < k ==> kept[m] in b.columns && columns[m] == b.columns[kept[m]]
      {
        if kept[k] !in b.columns { return None; }
        columns := columns + [b.columns[kept[k]]];
      }
      for k := 0 to |extra|
        invariant |columns| == |kept| + k
        invariant forall m :: 0 <= m < |kept| ==> kept[m] in b.columns && columns[m] == b.columns[kept[m]]
        invariant forall m :: 0 <= m < k ==> columns[|kept| + m] == seq(b.numRows, _ => extra[m])
      {
        columns := columns + [seq(b.numRows, _ => extra[k])];
      }
      r := Some(columns);
    }

    /** One batch with rows: turned into rows and inserted, unless the database refuses. */
    method InsertBatch(b: Batch<V>, dest: seq<string>, kept: seq<string>, extra: seq<V>,
                       ghost s: Source<V>, ghost lo: nat, ghost hi: nat)
      returns (ok: bool)
      requires ValidSource(s) && BatchOf(b, s, lo, hi) && b.numRows > 0
      requires (forall c :: c in kept ==> c in s.names) && |dest| == |kept| + |extra|
      requires AllCopies(s.names, kept) && RenamesAlike(kept, dest)
      requires pending == LoadedRows(s, lo, kept, extra)
      modifies this`pending
      ensures ok <==> Insertable(dest) && forall c :: c in kept ==> c in s.whole
      ensures pending == if ok then LoadedRows(s, hi, kept, extra) else []
    {
      var columns := RowColumns(b, kept, extra);
      WholeColumns(b, s, lo, hi, kept);
      if columns.None? || !Insertable(dest) {
        pending := [];
        return false;
      }
      DistinctKept(kept, dest);
      BatchExtends(b, s, lo, hi, kept, extra, columns.value);
      pending := pending + Zip(columns.value);
      ok := true;
    }

    /** The batches of the file, each refused or accepted by the database; reading the next batch
        may raise too. `failAt` numbers the batch that raises, or the commit last. */
    method Stream(batches: seq<Batch<V>>, dest: seq<string>, kept: seq<string>, extra: seq<V>, failAt: Option<nat>,
                  ghost s: Source<V>, ghost cuts: seq<nat>)
      returns (r: Result<nat, Error>)
      requires ValidSource(s) && BatchesOf(batches, s, cuts)
      requires (forall c :: c in kept ==> c in s.names) && |dest| == |kept| + |extra|
      requires AllCopies(s.names, kept) && RenamesAlike(kept, dest)
      requires pending == []
      modifies this
      ensures pending == []
      ensures r.Ok? <==> (s.rows == [] || (Insertable(dest) && forall c :: c in kept ==> c in s.whole))
                         && (failAt.None? || failAt.value > |batches|)
      ensures r.Ok? ==> r.value == |s.rows|
                        && committed == old(committed) + LoadedRows(s, |s.rows|, kept, extra)
      ensures r.Err? ==> r.error == DatabaseFailed && committed == old(committed)
    {
      var total := 0;
      for i := 0 to |batches|
        invariant committed == old(committed)
        invariant total == cuts[i] <= |s.rows|
        invariant pending == LoadedRows(s, cuts[i], kept, extra)
        invariant failAt.Some? ==> failAt.value >= i
        invariant cuts[i] > 0 ==> Insertable(dest) && forall c :: c in kept ==> c in s.whole
      {
        if failAt == Some(i) {
          pending := [];
          return Err(DatabaseFailed);
        }
        var b := batches[i];
        assert BatchOf(b, s, cuts[i], cuts[i + 1]);
        if b.numRows == 0 { continue; }
        var ok := InsertBatch(b, dest, kept, extra, s, cuts[i], cuts[i + 1]);
        if !ok { return Err(DatabaseFailed); }
        total := total + b.numRows;
      }
      if failAt == Some(|batches|) {
        pending := [];
        return Err(DatabaseFailed);
      }
      committed := committed + pending;
      pending := [];
      r := Ok(total);
    }
  }
}
