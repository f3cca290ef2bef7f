/** The CSV texts the admin screens build: `rows.map(r => r.join(',')).join('\n')`,
    with no quoting or escaping of any field. */
module Csv {
  import opened Strings

  function Line(fields: seq<string>): string {
    Join(",", fields)
  }

  function Lines(rows: seq<seq<string>>): (r: seq<string>)
    ensures |r| == |rows| && forall i :: 0 <= i < |rows| ==> r[i] == Line(rows[i])
  {
    seq(|rows|, i requires 0 <= i < |rows| => Line(rows[i]))
  }

  /** The text of a header row followed by data rows. */
  function Document(rows: seq<seq<string>>): string {
    Join("\n", Lines(rows))
  }

  /** Reading the text back: split into lines, then each line into fields. */
  function Parse(text: string): (r: seq<seq<string>>)
    ensures |r| >= 1
  {
    var ls := Split(text, '\n');
    seq(|ls|, i requires 0 <= i < |ls| => Split(ls[i], ','))
  }

  /** A field that the plain join cannot confuse with a separator. */
  predicate PlainField(f: string) {
    ',' !in f && '\n' !in f
  }

  predicate PlainRows(rows: seq<seq<string>>) {
    forall i, j :: 0 <= i < |rows| && 0 <= j < |rows[i]| ==> PlainField(rows[i][j])
  }

  lemma PlainRowsConcat(a: seq<seq<string>>, b: seq<seq<string>>)
    requires PlainRows(a) && PlainRows(b)
    ensures PlainRows(a + b)
  {
    forall i, j | 0 <= i < |a + b| && 0 <= j < |(a + b)[i]| ensures PlainField((a + b)[i][j]) {
      if i >= |a| {
        assert (a + b)[i] == b[i - |a|];
      }
    }
  }

  /** The first line of a document reads back as its first row when that row
      is plain. */
  lemma DocumentFirstRow(rows: seq<seq<string>>)
    requires |rows| >= 1 && |rows[0]| >= 1
    requires forall j :: 0 <= j < |rows[0]| ==> PlainField(rows[0][j])
    ensures Parse(Document(rows))[0] == rows[0]
  {
    var ls := Lines(rows);
    JoinExcludes(",", rows[0], '\n');
    SplitJoin(rows[0], ',');
    if |ls| == 1 {
      assert Document(rows) == ls[0];
      assert IndexOf(ls[0], '\n') == |ls[0]|;
    } else {
      assert Document(rows) == ls[0] + "\n" + Join("\n", ls[1..]);
      SplitCons(ls[0], '\n', Join("\n", ls[1..]));
    }
  }

  /** A cell holding one comma reads back as two cells. */
  lemma SplitCommaCell(row: seq<string>, i: nat, x: string, y: string)
    requires i < |row| && row[i] == x + "," + y && ',' !in x && ',' !in y
    requires forall k | 0 <= k < |row| && k != i :: ',' !in row[k]
    ensures Split(Line(row), ',') == row[..i] + [x, y] + row[i + 1..]
  {
    assert row == row[..i] + [x + "," + y] + row[i + 1..];
    JoinSplitsPart(",", row[..i], x, y, row[i + 1..]);
    var cells := row[..i] + [x, y] + row[i + 1..];
    forall k | 0 <= k < |cells| ensures ',' !in cells[k] {
      if k < i {
        assert cells[k] == row[k];
      } else if k > i + 1 {
        assert cells[k] == row[k - 1];
      }
    }
    SplitJoin(cells, ',');
  }

  /** A number rendered in decimal has no separator in it. */
  lemma NumberPlain(n: nat)
    ensures PlainField(NatToString(n))
  {
    var s := NatToString(n);
    assert forall k :: 0 <= k < |s| ==> IsDigit(s[k]);
  }

  /** A character in no part and not in the separator is not in the join. */
  lemma {:induction false} JoinExcludes(sep: string, parts: seq<string>, c: char)
    requires c !in sep
    requires forall k :: 0 <= k < |parts| ==> c !in parts[k]
    ensures c !in Join(sep, parts)
  {
    if |parts| >= 2 {
      JoinExcludes(sep, parts[1..], c);
    }
  }

  /** With at least one row, no empty row and no field holding `,` or `\n`,
      parsing the document gives back the rows. */
  lemma CsvRoundTrip(rows: seq<seq<string>>)
    requires |rows| >= 1
    requires forall i :: 0 <= i < |rows| ==> |rows[i]| >= 1
    requires PlainRows(rows)
    ensures Parse(Document(rows)) == rows
  {
    var ls := Lines(rows);
    forall i | 0 <= i < |rows| ensures '\n' !in ls[i] && Split(ls[i], ',') == rows[i] {
      JoinExcludes(",", rows[i], '\n');
      SplitJoin(rows[i], ',');
    }
    SplitJoin(ls, '\n');
  }

  /** A field holding a comma does not survive: the two-field header-less
      document `a,b` is read back as two fields. */
  lemma CommaFieldSplits()
    ensures Parse(Document([["a,b"]])) == [["a", "b"]]
  {
    assert Lines([["a,b"]]) == ["a,b"];
    assert Document([["a,b"]]) == "a,b";
    assert IndexOf("a,b", '\n') == 3;
    assert Split("a,b", '\n') == ["a,b"];
    assert IndexOf("a,b", ',') == 1;
    assert "a,b"[..1] == "a" && "a,b"[2..] == "b";
    assert IndexOf("b", ',') == 1;
    assert Split("b", ',') == ["b"];
    assert Split("a,b", ',') == ["a", "b"];
  }
}
