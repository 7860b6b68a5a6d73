/**
 * The CSV text both admin pages build before download: the keys of the first record joined
 * by ',', a newline, then one line per record with its values joined by ','. Nothing is
 * quoted or escaped.
 */
module Csv {
  import opened Wrappers
  import Text

  /** One exported record: its keys in insertion order, each with the text of its value. */
  type Row = seq<(string, string)>

  /** The scheme prefix the pages put in front of the content. */
  const DataUriPrefix: string := "data:text/csv;charset=utf-8,"

  /** `Object.keys(row)`. */
  function Keys(row: Row): (ks: seq<string>)
    ensures |ks| == |row| && forall k :: 0 <= k < |row| ==> ks[k] == row[k].0
  {
    if row == [] then [] else [row[0].0] + Keys(row[1..])
  }

  /** `Object.values(row)`. */
  function Values(row: Row): (vs: seq<string>)
    ensures |vs| == |row| && forall k :: 0 <= k < |row| ==> vs[k] == row[k].1
  {
    if row == [] then [] else [row[0].1] + Values(row[1..])
  }

  /** `data.map(row => Object.values(row).join(","))`. */
  function Lines(rows: seq<Row>): (ls: seq<string>)
    ensures |ls| == |rows|
    ensures forall k :: 0 <= k < |rows| ==> ls[k] == Text.Join(Values(rows[k]), ",")
  {
    if rows == [] then [] else [Text.Join(Values(rows[0]), ",")] + Lines(rows[1..])
  }

  /** The text after the prefix: header line, then the record lines. */
  function Body(rows: seq<Row>): string
    requires rows != []
  {
    Text.Join(Keys(rows[0]), ",") + "\n" + Text.Join(Lines(rows), "\n")
  }

  /** The content of an export; `None` for an empty list, where `data[0]` is undefined and
      `Object.keys` throws. */
  function Content(rows: seq<Row>): (r: Option<string>)
    ensures r.None? <==> rows == []
    ensures r.Some? ==> DataUriPrefix <= r.value
  {
    if rows == [] then None else Some(DataUriPrefix + Body(rows))
  }

  /** No key or value holds a ',' or a newline. */
  predicate Plain(rows: seq<Row>) {
    forall k, j :: 0 <= k < |rows| && 0 <= j < |rows[k]| ==>
      ',' !in rows[k][j].0 && '\n' !in rows[k][j].0 && ',' !in rows[k][j].1 && '\n' !in rows[k][j].1
  }

  lemma {:induction false} JoinAvoids(parts: seq<string>, sep: string, c: char)
    requires c !in sep
    requires forall k :: 0 <= k < |parts| ==> c !in parts[k]
    ensures c !in Text.Join(parts, sep)
  {
    if |parts| > 1 {
      JoinAvoids(parts[1..], sep, c);
    }
  }

  /** Each record line of plain records, split on ',', gives that record's values. */
  lemma LinesReadBack(rows: seq<Row>, k: nat)
    requires Plain(rows) && k < |rows| && rows[k] != []
    ensures Text.Split(Lines(rows)[k], ',') == Values(rows[k])
  {
    Text.SplitJoin(Values(rows[k]), ',');
  }

  /** The header of plain records, split on ',', gives the first record's keys. */
  lemma HeaderReadsBack(rows: seq<Row>)
    requires Plain(rows) && rows != [] && rows[0] != []
    ensures Text.Split(Text.Join(Keys(rows[0]), ","), ',') == Keys(rows[0])
  {
    Text.SplitJoin(Keys(rows[0]), ',');
  }

  /** The body of plain records, split on newlines, gives the header and one line per record. */
  lemma BodyReadsBack(rows: seq<Row>)
    requires rows != [] && Plain(rows)
    ensures Text.Split(Body(rows), '\n') == [Text.Join(Keys(rows[0]), ",")] + Lines(rows)
  {
    var header := Text.Join(Keys(rows[0]), ",");
    var ls := Lines(rows);
    JoinAvoids(Keys(rows[0]), ",", '\n');
    forall k | 0 <= k < |ls| ensures '\n' !in ls[k] {
      JoinAvoids(Values(rows[k]), ",", '\n');
    }
    Text.SplitJoin(ls, '\n');
    Text.SplitAtFirstSeparator(header, Text.Join(ls, "\n"), '\n');
  }
}
