/** The signed-in shell: the tab shown is chosen by the first segment of the
    location's path, and the bare root is redirected to the list tab. */
module LoggedPage {
  import opened Wrappers
  import opened Seqs

  /** `s.split(sep)` for a one-character separator: the pieces between the
      separators, one more than there are separators. */
  function Split(s: string, sep: char): (parts: seq<string>)
    ensures |parts| >= 1
    ensures forall k :: 0 <= k < |parts| ==> sep !in parts[k]
    ensures Join(parts, [sep]) == s
  {
    if |s| == 0 then [""]
    else
      var rest := Split(s[1..], sep);
      if s[0] == sep then
        assert Join([""] + rest, [sep]) == "" + [sep] + Join(rest, [sep]) by {
          assert ([""] + rest)[1..] == rest;
        }
        assert s == [s[0]] + s[1..];
        [""] + rest
      else
        var head := [s[0]] + rest[0];
        assert Join([head] + rest[1..], [sep]) == [s[0]] + Join(rest, [sep]) by {
          if |rest| > 1 {
            assert ([head] + rest[1..])[1..] == rest[1..];
            assert rest == [rest[0]] + rest[1..];
            assert Join(rest, [sep]) == rest[0] + [sep] + Join(rest[1..], [sep]);
          }
        }
        assert s == [s[0]] + s[1..];
        [head] + rest[1..]
  }

  /** A piece without separators splits to itself. */
  lemma {:induction false} SplitNoSeparator(a: string, sep: char)
    requires sep !in a
    ensures Split(a, sep) == [a]
  {
    if |a| > 0 {
      assert sep !in a[1..];
      SplitNoSeparator(a[1..], sep);
      assert a == [a[0]] + a[1..];
    }
  }

  /** A leading piece without separators comes off as the first part. */
  lemma {:induction false} SplitFirstPiece(a: string, sep: char, rest: string)
    requires sep !in a
    ensures Split(a + [sep] + rest, sep) == [a] + Split(rest, sep)
  {
    if |a| == 0 {
      assert a + [sep] + rest == [sep] + rest;
      assert ([sep] + rest)[1..] == rest;
    } else {
      assert (a + [sep] + rest)[1..] == a[1..] + [sep] + rest;
      assert sep !in a[1..];
      SplitFirstPiece(a[1..], sep, rest);
      assert a == [a[0]] + a[1..];
    }
  }

  /** `` `/${pathname.split("/")[1]}` ``: a missing second piece prints as
      "undefined". */
  function ParsedPathName(pathname: string): string {
    var parts := Split(pathname, '/');
    "/" + if |parts| > 1 then parts[1] else "undefined"
  }

  /** The first segment of a path names the tab, whatever follows it. */
  lemma ParsedFirstSegment(segment: string, rest: string)
    requires '/' !in segment
    ensures ParsedPathName("/" + segment) == "/" + segment
    ensures ParsedPathName("/" + segment + "/" + rest) == "/" + segment
  {
    SplitFirstPiece("", '/', segment);
    assert "" + "/" + segment == "/" + segment;
    SplitNoSeparator(segment, '/');
    SplitFirstPiece("", '/', segment + "/" + rest);
    assert "" + "/" + (segment + "/" + rest) == "/" + segment + "/" + rest;
    SplitFirstPiece(segment, '/', rest);
  }

  /** For a path that starts with "/", the parsed name has exactly one "/",
      at its start. */
  lemma ParsedHasOneSlash(pathname: string)
    requires |pathname| > 0 && pathname[0] == '/'
    ensures var r := ParsedPathName(pathname);
      |r| > 0 && forall k :: 0 <= k < |r| ==> (r[k] == '/' <==> k == 0)
  {
    var rest := pathname[1..];
    SplitFirstPiece("", '/', rest);
    assert "" + "/" + rest == pathname;
    var parts := Split(pathname, '/');
    assert parts[1] == Split(rest, '/')[0];
    assert '/' !in parts[1];
  }

  /** Examples: "/recipes/edit/x" parses to "/recipes", and the root to "/". */
  lemma ParsedExamples()
    ensures ParsedPathName("/recipes/edit/x") == "/recipes"
    ensures ParsedPathName("/") == "/"
  {
    assert ParsedPathName("/recipes/edit/x") == "/recipes" by {
      ParsedFirstSegment("recipes", "edit/x");
      assert "/" + "recipes" + "/" + "edit/x" == "/recipes/edit/x";
    }
    assert ParsedPathName("/") == "/" by {
      ParsedFirstSegment("", "");
      assert "/" + "" == "/";
    }
  }

  /** The page components of the three tabs, and the empty component shown
      for anything else. */
  datatype Content = IngredientsPage | ListsPage | RecipesPage | Empty

  /** The `TABS` lookup. */
  function TabFor(parsedPathName: string): (c: Content)
    ensures c == IngredientsPage <==> parsedPathName == "/ingredients"
    ensures c == ListsPage <==> parsedPathName == "/list"
    ensures c == RecipesPage <==> parsedPathName == "/recipes"
  {
    if parsedPathName == "/ingredients" then IngredientsPage
    else if parsedPathName == "/list" then ListsPage
    else if parsedPathName == "/recipes" then RecipesPage
    else Empty
  }

  /** The navigation the root-redirect effect performs, if any. */
  function Redirect(pathname: string): (target: Option<string>)
    ensures target.Some? <==> pathname == "/"
    ensures target.Some? ==> target.value == "/list"
  {
    if pathname == "/" then Some("/list") else None
  }

  /** The root itself shows the empty component, and is redirected to the
      list tab. */
  lemma RootIsRedirected()
    ensures TabFor(ParsedPathName("/")) == Empty
    ensures Redirect("/") == Some("/list")
  {
    ParsedExamples();
  }

  /** The redirect's target shows the list tab. */
  lemma ListPathShowsList()
    ensures TabFor(ParsedPathName("/list")) == ListsPage
  {
    ParsedFirstSegment("list", "");
    assert "/" + "list" == "/list";
  }
}
