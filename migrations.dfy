/**
 * What the Go and the two Node migration generators share: the migration
 * record, ordering by version, and the Rust source text emitted for a list
 * of migrations (`load_migrations()` returning one `Migration` per SQL file).
 */
module Migrations {
  import opened Text
  import opened Numbers

  /** One SQL migration file as the generators see it. */
  datatype Migration = Migration(filename: string, version: int, description: string)

  /** What a directory listing says about one entry. */
  datatype EntryKind = RegularFile | Directory | OtherEntry

  datatype DirEntry = DirEntry(name: string, kind: EntryKind)

  // ---------------------------------------------------------------------------
  // Ordering by version
  // ---------------------------------------------------------------------------

  predicate SortedByVersion(ms: seq<Migration>) {
    forall i, j :: 0 <= i < j < |ms| ==> ms[i].version <= ms[j].version
  }

  /** A sorted list stays sorted under a head no larger than its first element. */
  lemma {:induction false} SortedCons(x: Migration, t: seq<Migration>)
    requires SortedByVersion(t) && (t == [] || x.version <= t[0].version)
    ensures SortedByVersion([x] + t)
  {
    var r := [x] + t;
    forall i, j | 0 <= i < j < |r| ensures r[i].version <= r[j].version {
      assert r[j] == t[j - 1];
      if i > 0 {
        assert r[i] == t[i - 1];
      }
    }
  }

  /** The step of `Insert` that keeps the head of `s` in front of the insertion into its tail. */
  lemma {:induction false} InsertBehind(m: Migration, s: seq<Migration>, t: seq<Migration>)
    requires SortedByVersion(s) && s != [] && s[0].version < m.version
    requires SortedByVersion(t) && t != [] && (t[0] == m || (|s| > 1 && t[0] == s[1]))
    requires multiset(t) == multiset(s[1..]) + multiset{m}
    ensures SortedByVersion([s[0]] + t)
    ensures multiset([s[0]] + t) == multiset(s) + multiset{m}
  {
    assert s == [s[0]] + s[1..];
    SortedCons(s[0], t);
  }

  /** Put `m` in front of the first element whose version is not smaller. */
  function Insert(m: Migration, s: seq<Migration>): (r: seq<Migration>)
    requires SortedByVersion(s)
    ensures |r| == |s| + 1
    ensures r[0] == m || (s != [] && r[0] == s[0])
    ensures SortedByVersion(r)
    ensures multiset(r) == multiset(s) + multiset{m}
  {
    if s == [] || m.version <= s[0].version then [m] + s
    else
      var t := Insert(m, s[1..]);
      InsertBehind(m, s, t);
      [s[0]] + t
  }

  /** Stable sort by ascending version (`Array.prototype.sort` with `a.version - b.version`). */
  function SortByVersion(ms: seq<Migration>): (r: seq<Migration>)
    ensures SortedByVersion(r)
    ensures multiset(r) == multiset(ms)
    ensures |r| == |ms|
  {
    if ms == [] then []
    else
      assert ms == [ms[0]] + ms[1..];
      Insert(ms[0], SortByVersion(ms[1..]))
  }

  /** The migrations of `ms` that carry version `v`, in their order in `ms`. */
  function WithVersion(ms: seq<Migration>, v: int): seq<Migration> {
    if ms == [] then []
    else (if ms[0].version == v then [ms[0]] else []) + WithVersion(ms[1..], v)
  }

  lemma {:induction false} WithVersionInsert(m: Migration, s: seq<Migration>, v: int)
    requires SortedByVersion(s)
    ensures WithVersion(Insert(m, s), v) == (if m.version == v then [m] else []) + WithVersion(s, v)
  {
    if s == [] || m.version <= s[0].version {
      assert ([m] + s)[1..] == s;
    } else {
      var mine := if m.version == v then [m] else [];
      WithVersionInsert(m, s[1..], v);
      assert Insert(m, s) == [s[0]] + Insert(m, s[1..]);
      assert s == [s[0]] + s[1..];
      // Every element Insert passes over is smaller than m, so only one of the two can carry `v`.
      WithVersionBehind(s[0], Insert(m, s[1..]), s[1..], mine, v);
    }
  }

  /** A head that `v` does not select, or no `mine` to order it against, keeps both sides equal. */
  lemma {:induction false} WithVersionBehind(x: Migration, t: seq<Migration>, rest: seq<Migration>,
                                             mine: seq<Migration>, v: int)
    requires WithVersion(t, v) == mine + WithVersion(rest, v)
    requires x.version == v ==> mine == []
    ensures WithVersion([x] + t, v) == mine + WithVersion([x] + rest, v)
  {
    assert ([x] + t)[1..] == t;
    assert ([x] + rest)[1..] == rest;
    if x.version == v {
      assert mine + WithVersion([x] + rest, v) == [x] + WithVersion(rest, v);
    }
  }

  /** The sort is stable: migrations of equal version keep their relative order. */
  lemma {:induction false} SortIsStable(ms: seq<Migration>, v: int)
    ensures WithVersion(SortByVersion(ms), v) == WithVersion(ms, v)
  {
    if ms != [] {
      SortIsStable(ms[1..], v);
      WithVersionInsert(ms[0], SortByVersion(ms[1..]), v);
    }
  }

  /** Sorting never looks at descriptions: relabelling commutes with it. */
  function Relabel(ms: seq<Migration>, d: string): (r: seq<Migration>)
    ensures |r| == |ms|
    ensures forall i :: 0 <= i < |ms| ==> r[i] == ms[i].(description := d)
  {
    if ms == [] then [] else [ms[0].(description := d)] + Relabel(ms[1..], d)
  }

  lemma {:induction false} RelabelInsert(m: Migration, s: seq<Migration>, d: string)
    requires SortedByVersion(s)
    ensures SortedByVersion(Relabel(s, d))
    ensures Relabel(Insert(m, s), d) == Insert(m.(description := d), Relabel(s, d))
  {
    var rs := Relabel(s, d);
    assert SortedByVersion(rs) by {
      forall i, j | 0 <= i < j < |rs| ensures rs[i].version <= rs[j].version {
        assert rs[i].version == s[i].version && rs[j].version == s[j].version;
      }
    }
    if s == [] || m.version <= s[0].version {
    } else {
      RelabelInsert(m, s[1..], d);
      assert Relabel(s, d)[1..] == Relabel(s[1..], d);
    }
  }

  lemma {:induction false} SortRelabel(ms: seq<Migration>, d: string)
    ensures SortByVersion(Relabel(ms, d)) == Relabel(SortByVersion(ms), d)
  {
    if ms != [] {
      SortRelabel(ms[1..], d);
      assert Relabel(ms, d)[1..] == Relabel(ms[1..], d);
      RelabelInsert(ms[0], SortByVersion(ms[1..]), d);
    }
  }

  // ---------------------------------------------------------------------------
  // The generated Rust text
  // ---------------------------------------------------------------------------

  /** The fixed lines before the entries … */
  const HeaderLines: seq<string> :=
    [ImportLine, "", OpenFunctionLine, "    vec!["]

  const ImportLine: string := ImportPath + "{Migration, MigrationKind};"
  const ImportPath: string := "use tauri_plugin_sql::"
  const OpenFunctionLine: string := FunctionName + " -> Vec<Migration> {"
  const FunctionName: string := "pub fn load_migrations()"

  /** … and after them. */
  const FooterLines: seq<string> := ["    ]", "}"]

  const Header: string := Unlines(HeaderLines)

  const Footer: string := Unlines(FooterLines)

  /** One `Migration { … }` entry of the `vec![…]`, without its line break. */
  function LineText(m: Migration): string {
    EntryText(IntToDecimal(m.version), m.description, m.filename)
  }

  /** The entry text around its three printed fields. */
  function EntryText(version: string, description: string, filename: string): string {
    EntryOpen + version + EntryDescription + description + EntrySql + filename + EntryClose
  }

  const EntryOpen: string := "        Migration { version: "
  const EntryDescription: string := ", description: \""
  const EntrySql: string := "\", sql: include_str!(\""
  const EntryClose: string := "\"), kind: MigrationKind::Up },"

  /** The entries for `ms`, each followed by a line break, in list order. */
  function Body(ms: seq<Migration>): string {
    if ms == [] then "" else Body(ms[..|ms| - 1]) + LineText(ms[|ms| - 1]) + "\n"
  }

  /** The whole generated file. */
  function Rendered(ms: seq<Migration>): string {
    Header + Body(ms) + Footer
  }

  /** Each line followed by a line break. */
  function Unlines(ls: seq<string>): string {
    if ls == [] then "" else ls[0] + "\n" + Unlines(ls[1..])
  }

  /** The entry line of each migration, in list order. */
  function Lines(ms: seq<Migration>): (ls: seq<string>)
    ensures |ls| == |ms|
  {
    seq(|ms|, i requires 0 <= i < |ms| => LineText(ms[i]))
  }

  /** The lines of a non-empty list are those of all but its last element, then the last one's. */
  lemma {:induction false} LinesSnoc(ms: seq<Migration>)
    requires ms != []
    ensures Lines(ms) == Lines(ms[..|ms| - 1]) + [LineText(ms[|ms| - 1])]
  {
    var a, b := Lines(ms), Lines(ms[..|ms| - 1]) + [LineText(ms[|ms| - 1])];
    forall i | 0 <= i < |a| ensures a[i] == b[i] {
      if i < |ms| - 1 {
        assert ms[..|ms| - 1][i] == ms[i];
      }
    }
  }

  lemma {:induction false} UnlinesAppend(a: seq<string>, b: seq<string>)
    ensures Unlines(a + b) == Unlines(a) + Unlines(b)
  {
    if a == [] {
      assert a + b == b;
    } else {
      assert (a + b)[1..] == a[1..] + b;
      UnlinesAppend(a[1..], b);
    }
  }

  lemma {:induction false} UnlinesOne(l: string)
    ensures Unlines([l]) == l + "\n"
  {
    assert [l][1..] == [];
  }

  lemma {:induction false} BodyUnlines(ms: seq<Migration>)
    ensures Body(ms) == Unlines(Lines(ms))
  {
    if ms != [] {
      var init, last := ms[..|ms| - 1], LineText(ms[|ms| - 1]);
      BodyUnlines(init);
      UnlinesAppend(Lines(init), [last]);
      UnlinesOne(last);
      LinesSnoc(ms);
      AppendAssoc(Body(init), last, "\n");
    }
  }

  lemma {:induction false} UnlinesFirst(ls: seq<string>, rest: string)
    requires ls != []
    ensures Unlines(ls) + rest == ls[0] + ['\n'] + (Unlines(ls[1..]) + rest)
  {
    assert Unlines(ls) == ls[0] + "\n" + Unlines(ls[1..]);
  }

  lemma {:induction false} ConsAppend(x: string, t: seq<string>, p: seq<string>)
    ensures [x] + (t + p) == [x] + t + p
  {
  }

  /** Splitting `Unlines(ls) + rest` on line breaks recovers the lines, then `rest`'s pieces. */
  lemma {:induction false} SplitUnlines(ls: seq<string>, rest: string)
    requires forall i :: 0 <= i < |ls| ==> '\n' !in ls[i]
    ensures Split(Unlines(ls) + rest, '\n') == ls + Split(rest, '\n')
  {
    if ls != [] {
      assert forall i :: 0 <= i < |ls[1..]| ==> ls[1..][i] == ls[i + 1];
      SplitUnlines(ls[1..], rest);
      SplitFirstLine(ls, rest);
    } else {
      assert Unlines(ls) + rest == rest;
      assert ls + Split(rest, '\n') == Split(rest, '\n');
    }
  }

  /** The first line splits off, given that the remaining lines do. */
  lemma {:induction false} SplitFirstLine(ls: seq<string>, rest: string)
    requires ls != [] && '\n' !in ls[0]
    requires Split(Unlines(ls[1..]) + rest, '\n') == ls[1..] + Split(rest, '\n')
    ensures Split(Unlines(ls) + rest, '\n') == ls + Split(rest, '\n')
  {
    var x, tail := ls[0], Unlines(ls[1..]) + rest;
    UnlinesFirst(ls, rest);
    SplitAfter(x, '\n', tail);
    ConsAppend(x, ls[1..], Split(rest, '\n'));
    assert [x] + ls[1..] == ls;
  }

  /** Neither the file name nor the description breaks a line. */
  predicate OneLine(m: Migration) {
    '\n' !in m.filename && '\n' !in m.description
  }

  lemma {:induction false} FixedLinesOneLine()
    ensures forall i :: 0 <= i < |HeaderLines| ==> '\n' !in HeaderLines[i]
    ensures forall i :: 0 <= i < |FooterLines| ==> '\n' !in FooterLines[i]
  {
    ImportLineOneLine();
    OpenFunctionLineOneLine();
  }

  lemma {:induction false} ImportLineOneLine()
    ensures '\n' !in ImportLine
  {
    var names := "{Migration, MigrationKind};";
    forall k | 0 <= k < |ImportPath| ensures ImportPath[k] != '\n' { }
    forall k | 0 <= k < |names| ensures names[k] != '\n' { }
  }

  lemma {:induction false} OpenFunctionLineOneLine()
    ensures '\n' !in OpenFunctionLine
  {
    var result := " -> Vec<Migration> {";
    forall k | 0 <= k < |FunctionName| ensures FunctionName[k] != '\n' { }
    forall k | 0 <= k < |result| ensures result[k] != '\n' { }
  }

  lemma {:induction false} LineTextOneLine(m: Migration)
    requires OneLine(m)
    ensures '\n' !in LineText(m)
  {
    EntryTextOneLine(IntToDecimal(m.version), m.description, m.filename);
  }

  lemma {:induction false} EntryTextOneLine(version: string, description: string, filename: string)
    requires '\n' !in version && '\n' !in description && '\n' !in filename
    ensures '\n' !in EntryText(version, description, filename)
  {
    EntryOpenOneLine();
    EntryDescriptionOneLine();
    EntrySqlOneLine();
    EntryCloseOneLine();
  }

  lemma {:induction false} EntryOpenOneLine()
    ensures '\n' !in EntryOpen
  {
    forall k | 0 <= k < |EntryOpen| ensures EntryOpen[k] != '\n' { }
  }

  lemma {:induction false} EntryDescriptionOneLine()
    ensures '\n' !in EntryDescription
  {
    forall k | 0 <= k < |EntryDescription| ensures EntryDescription[k] != '\n' { }
  }

  lemma {:induction false} EntrySqlOneLine()
    ensures '\n' !in EntrySql
  {
    forall k | 0 <= k < |EntrySql| ensures EntrySql[k] != '\n' { }
  }

  lemma {:induction false} EntryCloseOneLine()
    ensures '\n' !in EntryClose
  {
    forall k | 0 <= k < |EntryClose| ensures EntryClose[k] != '\n' { }
  }

  /**
   * The generated file, read line by line: the fixed header lines, then exactly
   * one entry per migration in list order, then the fixed footer lines (the
   * file ends with a line break, hence the final empty piece).
   */
  lemma {:induction false} GeneratedLines(ms: seq<Migration>)
    requires forall i :: 0 <= i < |ms| ==> OneLine(ms[i])
    ensures Split(Rendered(ms), '\n') == HeaderLines + Lines(ms) + FooterLines + [""]
  {
    RenderedIsUnlines(ms);
    NoLineBreaks(ms);
    SplitLines(HeaderLines + Lines(ms) + FooterLines);
  }

  /** Text made of whole lines splits into those lines and a final empty piece. */
  lemma {:induction false} SplitLines(ls: seq<string>)
    requires forall i :: 0 <= i < |ls| ==> '\n' !in ls[i]
    ensures Split(Unlines(ls), '\n') == ls + [""]
  {
    AppendEmpty(Unlines(ls));
    SplitUnlines(ls, "");
    assert Split("", '\n') == [""];
  }

  /** The generated text is the header lines, the entries and the footer lines, each ended by a line break. */
  lemma {:induction false} RenderedIsUnlines(ms: seq<Migration>)
    ensures Rendered(ms) == Unlines(HeaderLines + Lines(ms) + FooterLines)
  {
    var ls := Lines(ms);
    BodyUnlines(ms);
    UnlinesAppend(HeaderLines, ls);
    UnlinesAppend(HeaderLines + ls, FooterLines);
  }

  lemma {:induction false} NoLineBreaks(ms: seq<Migration>)
    requires forall i :: 0 <= i < |ms| ==> OneLine(ms[i])
    ensures forall i :: 0 <= i < |HeaderLines + Lines(ms) + FooterLines| ==> '\n' !in (HeaderLines + Lines(ms) + FooterLines)[i]
  {
    var ls := Lines(ms);
    var all := HeaderLines + ls + FooterLines;
    FixedLinesOneLine();
    forall i | 0 <= i < |all| ensures '\n' !in all[i] {
      if i < |HeaderLines| {
        assert all[i] == HeaderLines[i];
      } else if i < |HeaderLines| + |ls| {
        assert all[i] == ls[i - |HeaderLines|];
        LineTextOneLine(ms[i - |HeaderLines|]);
      } else {
        assert all[i] == FooterLines[i - |HeaderLines| - |ls|];
      }
    }
  }

  /**
   * `generateRustMigrationContent` / `generateRustContent`: the header, one
   * entry per migration appended in a loop, then the footer.
   */
  method RenderRust(ms: seq<Migration>) returns (content: string)
    ensures content == Rendered(ms)
  {
    content := Header;
    var i := 0;
    assert ms[..0] == [];
    AppendEmpty(Header);
    while i < |ms|
      invariant 0 <= i <= |ms|
      invariant content == Header + Body(ms[..i])
    {
      BodySnoc(ms, i);
      AppendAssoc(Header, Body(ms[..i]), LineText(ms[i]) + "\n");
      content := content + (LineText(ms[i]) + "\n");
      i := i + 1;
    }
    assert ms[..|ms|] == ms;
    content := content + Footer;
  }

  lemma {:induction false} AppendEmpty(s: string)
    ensures s + "" == s
  {
  }

  lemma {:induction false} BodySnoc(ms: seq<Migration>, i: nat)
    requires i < |ms|
    ensures Body(ms[..i + 1]) == Body(ms[..i]) + (LineText(ms[i]) + "\n")
  {
    assert ms[..i + 1][..i] == ms[..i];
  }
}
