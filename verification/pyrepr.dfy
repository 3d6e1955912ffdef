/** How Python's `str.format` turns the operator's attributes into text:
    a `None`-able string becomes its own text or the word `None`, and a list
    of strings becomes its `str()` form, `['a', 'b']`. */
module PyRepr {
  import opened Wrappers
  import opened Text

  /** `'{}'.format(v)` for a value that is a string or `None`. */
  function FormatOptional(v: Option<string>): string
  {
    match v
    case Some(s) => s
    case None => "None"
  }

  /** The repr of the string `x` (single quotes around it) followed by the
      text `rest`. */
  function Quoted(x: string, rest: string): string
  {
    "'" + (x + ("'" + rest))
  }

  /** The items of a list's `str()` form, separated by a comma and a space. */
  function FormatItems(xs: seq<string>): string
  {
    if |xs| == 0 then ""
    else if |xs| == 1 then Quoted(xs[0], "")
    else Quoted(xs[0], ", " + FormatItems(xs[1..]))
  }

  /** `str(xs)` for a list of strings. */
  function FormatList(xs: seq<string>): string
  {
    "[" + (FormatItems(xs) + "]")
  }

  /** Reads one quoted item off the front of `s`, with the text after it. */
  function ParseItem(s: string): (r: Option<(string, string)>)
    ensures r.Some? ==> s == Quoted(r.value.0, r.value.1) && '\'' !in r.value.0
  {
    if s != [] && s[0] == '\'' then
      match SplitFirst(s[1..], '\'')
      case None => None
      case Some((item, rest)) =>
        assert s == "'" + s[1..];
        Some((item, rest))
    else None
  }

  lemma ParseItemOf(x: string, rest: string)
    requires '\'' !in x
    ensures ParseItem(Quoted(x, rest)) == Some((x, rest))
  {
    var s := Quoted(x, rest);
    assert s[1..] == x + ("'" + rest);
    SplitFirstOf(x, '\'', rest);
  }

  /** Reads back a comma-separated run of quoted items. */
  function ParseItems(s: string): Option<seq<string>>
    decreases |s|
  {
    if s == [] then Some([])
    else match ParseItem(s)
      case None => None
      case Some((x, rest)) =>
        if rest == [] then Some([x])
        else match StripPrefix(rest, ", ")
          case None => None
          case Some(tail) =>
            if tail == [] then None
            else match ParseItems(tail)
              case None => None
              case Some(items) => Some([x] + items)
  }

  lemma FormatItemsCons(x: string, items: seq<string>)
    requires items != []
    ensures FormatItems([x] + items) == Quoted(x, ", " + FormatItems(items))
  {
    assert ([x] + items)[1..] == items;
  }

  /** Reading is exact: whatever `ParseItems` accepts is the rendering of
      what it returns. */
  lemma {:induction false} FormatParseItems(s: string)
    ensures ParseItems(s).Some? ==> FormatItems(ParseItems(s).value) == s
    decreases |s|
  {
    if s != [] && ParseItem(s).Some? {
      var (x, rest) := ParseItem(s).value;
      if rest == [] {
        assert FormatItems([x]) == s;
      } else if StripPrefix(rest, ", ").Some? {
        var tail := StripPrefix(rest, ", ").value;
        if tail != [] && ParseItems(tail).Some? {
          var items := ParseItems(tail).value;
          FormatParseItems(tail);
          FormatItemsCons(x, items);
          assert ParseItems(s) == Some([x] + items);
        }
      }
    }
  }

  /** Reads back the `str()` form of a list of strings, exactly: whatever
      it accepts is the rendering of what it returns. */
  function ParseList(s: string): (r: Option<seq<string>>)
    ensures r.Some? ==> FormatList(r.value) == s
  {
    if 2 <= |s| && s[0] == '[' && s[|s| - 1] == ']' then
      var inner := s[1..|s| - 1];
      assert s == "[" + (inner + "]");
      FormatParseItems(inner);
      ParseItems(inner)
    else None
  }

  /** Items that contain no single quote: exactly the strings whose repr is
      the plain quoted text. */
  predicate PlainItems(xs: seq<string>)
  {
    forall i :: 0 <= i < |xs| ==> '\'' !in xs[i]
  }

  /** One step of reading: a plain quoted item, a separator, and a
      non-empty remainder that reads as `items`. */
  lemma ParseItemsCons(x: string, more: string, items: seq<string>)
    requires '\'' !in x && more != [] && ParseItems(more) == Some(items)
    ensures ParseItems(Quoted(x, ", " + more)) == Some([x] + items)
  {
    var rest := ", " + more;
    var s := Quoted(x, rest);
    ParseItemOf(x, rest);
    StripPrefixOf(", ", more);
    assert StripPrefix(rest, ", ") == Some(more);
  }

  lemma ParseFormatCons(x: string, ys: seq<string>)
    requires '\'' !in x && ys != []
    requires ParseItems(FormatItems(ys)) == Some(ys)
    ensures ParseItems(FormatItems([x] + ys)) == Some([x] + ys)
  {
    FormatItemsCons(x, ys);
    ParseItemsCons(x, FormatItems(ys), ys);
  }

  lemma {:induction false} ParseFormatItems(xs: seq<string>)
    requires PlainItems(xs)
    ensures ParseItems(FormatItems(xs)) == Some(xs)
    decreases |xs|
  {
    if |xs| == 1 {
      ParseItemOf(xs[0], "");
      assert [xs[0]] == xs;
    } else if |xs| > 1 {
      ParseFormatItems(xs[1..]);
      ParseFormatCons(xs[0], xs[1..]);
      assert [xs[0]] + xs[1..] == xs;
    }
  }

  /** The rendered list keeps every item, in the order given and with
      repeats: parsing the text gives the very same list back. */
  lemma ParseFormatList(xs: seq<string>)
    requires PlainItems(xs)
    ensures ParseList(FormatList(xs)) == Some(xs)
  {
    var s := FormatList(xs);
    assert s[1..|s| - 1] == FormatItems(xs);
    ParseFormatItems(xs);
  }
}
