/** src/sql/sql_file_reader.py: a file of SQL statements separated by `;`. The
    file itself is not read here; its content is the input. */
module SqlFileReader {
  import opened Text

  /** Neither empty nor starting or ending with whitespace: what strip() leaves alone. */
  predicate Clean(x: string) {
    x != [] && !IsSpace(x[0]) && !IsSpace(x[|x| - 1])
  }

  /** Every piece holds whitespace only. */
  predicate Blank(pieces: seq<string>) {
    forall i :: 0 <= i < |pieces| ==> AllSpace(pieces[i])
  }

  /** The loop of _read_and_parse_file over the pieces of the split: strip each
      piece and keep it when something is left, in order. */
  function Cleaned(pieces: seq<string>): (r: seq<string>)
    ensures |r| <= |pieces|
    ensures forall i :: 0 <= i < |r| ==> Clean(r[i])
  {
    if pieces == [] then []
    else
      var init := Cleaned(pieces[..|pieces| - 1]);
      var cleaned := Strip(pieces[|pieces| - 1]);
      if cleaned == [] then init else init + [cleaned]
  }

  /** What _read_and_parse_file returns for a file's content. */
  function Statements(content: string): seq<string> {
    Cleaned(Split(content, ';'))
  }

  /** _read_and_parse_file once the content is read. */
  method ReadAndParse(content: string) returns (statements: seq<string>)
    ensures statements == Statements(content)
  {
    var pieces := Split(content, ';');
    statements := [];
    for i := 0 to |pieces|
      invariant statements == Cleaned(pieces[..i])
    {
      CleanedPrefix(pieces, i);
      var cleaned := Strip(pieces[i]);
      if cleaned != [] {
        statements := statements + [cleaned];
      }
    }
    assert pieces[..|pieces|] == pieces;
  }

  /** One more piece of the split: kept after the others when something is left of it. */
  lemma CleanedPrefix(pieces: seq<string>, i: nat)
    requires i < |pieces|
    ensures Cleaned(pieces[..i + 1]) ==
      if Strip(pieces[i]) == [] then Cleaned(pieces[..i]) else Cleaned(pieces[..i]) + [Strip(pieces[i])]
  {
    assert pieces[..i + 1][..i] == pieces[..i];
  }

  /** A character of a cleaned piece comes from one of the pieces. */
  lemma {:induction false} CleanedKeepsCharacters(pieces: seq<string>, c: char)
    ensures (exists x :: x in Cleaned(pieces) && c in x) ==> exists p :: p in pieces && c in p
  {
    if pieces != [] {
      var init := pieces[..|pieces| - 1];
      var last := pieces[|pieces| - 1];
      CleanedKeepsCharacters(init, c);
      if x :| x in Cleaned(pieces) && c in x {
        if x in Cleaned(init) {
          var p :| p in init && c in p;
          assert p in pieces;
        } else {
          assert x == Strip(last);
          StripKeepsCharacters(last, c);
        }
      }
    }
  }

  /** No statement is empty, contains a `;`, or begins or ends with whitespace. */
  lemma StatementsWellFormed(content: string)
    ensures forall x :: x in Statements(content) ==>
      x != [] && ';' !in x && !IsSpace(x[0]) && !IsSpace(x[|x| - 1])
  {
    forall x | x in Statements(content)
      ensures x != [] && ';' !in x && !IsSpace(x[0]) && !IsSpace(x[|x| - 1])
    {
      var i :| 0 <= i < |Statements(content)| && Statements(content)[i] == x;
      assert Clean(x);
      if ';' in x {
        CleanedKeepsCharacters(Split(content, ';'), ';');
      }
    }
  }

  /** There are at most as many statements as pieces: one more than the number of
      separators. */
  lemma StatementCount(content: string)
    ensures |Statements(content)| <= Count(content, ';') + 1
  {
  }

  /** Cleaning drops exactly the blank pieces. */
  lemma {:induction false} CleanedBlank(pieces: seq<string>)
    ensures Cleaned(pieces) == [] <==> Blank(pieces)
  {
    if pieces != [] {
      var n := |pieces| - 1;
      CleanedBlank(pieces[..n]);
      CleanedPrefix(pieces, n);
      assert pieces[..n + 1] == pieces;
      BlankPrefix(pieces, n);
    }
  }

  lemma BlankPrefix(pieces: seq<string>, n: nat)
    requires n + 1 == |pieces|
    ensures Blank(pieces) <==> Blank(pieces[..n]) && Strip(pieces[n]) == []
  {
    assert forall i :: 0 <= i < n ==> pieces[..n][i] == pieces[i];
  }

  /** Blank content gives no statement; non-blank content without a `;` gives the
      whole content, stripped. */
  lemma BlankAndSingle(content: string)
    ensures AllSpace(content) ==> Statements(content) == []
    ensures ';' !in content && !AllSpace(content) ==> Statements(content) == [Strip(content)]
  {
    var pieces := Split(content, ';');
    if AllSpace(content) {
      SplitKeepsCharacters(content, ';');
      forall k | 0 <= k < |pieces| ensures AllSpace(pieces[k]) {
        assert pieces[k] in pieces;
        forall i | 0 <= i < |pieces[k]| ensures IsSpace(pieces[k][i]) {
          assert pieces[k][i] in content;
        }
      }
      CleanedBlank(pieces);
      assert Blank(pieces);
    }
    if ';' !in content {
      SplitAfterPiece(content, "", ';');
      assert content + "" == content;
      assert pieces == [content];
      assert pieces[..0] == [];
    }
  }

  /** Pieces that are already clean are kept as they are. */
  lemma {:induction false} CleanedFixed(xs: seq<string>)
    requires forall i :: 0 <= i < |xs| ==> Clean(xs[i])
    ensures Cleaned(xs) == xs
  {
    if xs != [] {
      var init := xs[..|xs| - 1];
      var last := xs[|xs| - 1];
      CleanedFixed(init);
      assert Clean(last);
      StripUnchanged(last);
      CleanedLast(xs, last);
      assert xs == init + [last];
    }
  }

  lemma CleanedLast(xs: seq<string>, last: string)
    requires xs != [] && last == xs[|xs| - 1] && Strip(last) == last && last != []
    ensures Cleaned(xs) == Cleaned(xs[..|xs| - 1]) + [last]
  {
  }

  /** Joining clean statements with `;` and parsing the result gives them back. */
  lemma StatementsOfJoin(xs: seq<string>)
    requires forall i :: 0 <= i < |xs| ==> Clean(xs[i]) && ';' !in xs[i]
    ensures Statements(Join(xs, ';')) == xs
  {
    if xs == [] {
      assert Split("", ';') == [""];
      assert [""][..0] == [];
    } else {
      SplitJoin(xs, ';');
      CleanedFixed(xs);
    }
  }

  /** Parsing the statements joined again with `;` gives the same statements. */
  lemma ReparseIdempotent(content: string)
    ensures Statements(Join(Statements(content), ';')) == Statements(content)
  {
    var r := Statements(content);
    StatementsWellFormed(content);
    assert forall i :: 0 <= i < |r| ==> r[i] in r;
    StatementsOfJoin(r);
  }

  /** Quotes do not protect a `;`: a string literal holding one is cut in two. */
  lemma QuotedSeparatorSplits()
    ensures Statements("SELECT ';' FROM DUAL") == ["SELECT '", "' FROM DUAL"]
  {
    var xs := ["SELECT '", "' FROM DUAL"];
    assert Join(xs, ';') == "SELECT ';' FROM DUAL" by {
      assert xs[1..] == ["' FROM DUAL"];
    }
    assert Clean(xs[0]) && Clean(xs[1]);
    assert ';' !in xs[0] && ';' !in xs[1];
    StatementsOfJoin(xs);
  }
}
