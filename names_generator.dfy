/** names_generator.py: `generate_py_code` serialises a list of names into
    the source text of a Python module holding them as the list `NAMES`. */
module NamesGenerator {
  import opened Values

  /** The template around the rows: everything before `{}` and everything after. */
  const Head: string := "\nimport random\n\nNAMES = [\n"
  const Tail: string := "\n]\n\n\ndef get_random():\n    return random.choice(NAMES)\n\n"

  const RowStart: string := "    \""
  const RowEnd: string := "\",\n"

  /** `'    "{}",\n'.format(name)`: the name goes in unescaped. */
  function Row(name: string): (r: string)
    ensures |r| == |name| + 8
    ensures r[..5] == RowStart && r[5..5 + |name|] == name && r[5 + |name|..] == RowEnd
  {
    RowStart + name + RowEnd
  }

  /** The rows of `names`, in order. */
  function Rows(names: seq<string>): string
  {
    if names == [] then "" else Rows(names[..|names| - 1]) + Row(names[|names| - 1])
  }

  /** `generate_py_code(names)`. */
  method GeneratePyCode(names: seq<string>) returns (code: string)
    ensures code == Head + Rows(names) + Tail
  {
    var arrayString := "";
    for i := 0 to |names|
      invariant arrayString == Rows(names[..i])
    {
      assert names[..i + 1][..i] == names[..i];
      arrayString := arrayString + Row(names[i]);
    }
    assert names[..|names|] == names;
    code := Head + arrayString + Tail;
  }

  /** The rows of a list starting with `name`. */
  lemma {:induction false} RowsCons(name: string, names: seq<string>)
    ensures Rows([name] + names) == Row(name) + Rows(names)
    decreases |names|
  {
    if names != [] {
      var init := names[..|names| - 1];
      assert ([name] + names)[..|names|] == [name] + init;
      RowsCons(name, init);
    } else {
      assert ([name] + names)[..0] == [];
    }
  }

  /** Each name contributes exactly its row: the text is as long as the names plus eight characters each. */
  lemma {:induction false} RowsLength(names: seq<string>)
    ensures |Rows(names)| == TotalLength(names) + 8 * |names|
    decreases |names|
  {
    if names != [] {
      RowsLength(names[..|names| - 1]);
      TotalLengthSnoc(names[..|names| - 1], names[|names| - 1]);
      assert names[..|names| - 1] + [names[|names| - 1]] == names;
    }
  }

  function TotalLength(names: seq<string>): nat
  {
    if names == [] then 0 else |names[0]| + TotalLength(names[1..])
  }

  lemma {:induction false} TotalLengthSnoc(names: seq<string>, name: string)
    ensures TotalLength(names + [name]) == TotalLength(names) + |name|
    decreases |names|
  {
    if names != [] {
      assert (names + [name])[1..] == names[1..] + [name];
      TotalLengthSnoc(names[1..], name);
    }
  }

  /** A name the row can carry back: no double quote to end it early. */
  predicate Quoteless(name: string)
  {
    '"' !in name
  }

  /** The length of the leading run of characters other than `"`. */
  function NameLength(s: string): (k: nat)
    ensures k <= |s| && Quoteless(s[..k]) && (k < |s| ==> s[k] == '"')
  {
    if s == [] || s[0] == '"' then 0
    else
      var k := NameLength(s[1..]);
      assert s[..k + 1] == [s[0]] + s[1..][..k];
      k + 1
  }

  /** Reads the rows back: the inverse of `Rows` on quoteless names. */
  function ParseRows(s: string): Option<seq<string>>
    decreases |s|
  {
    if s == [] then Some([])
    else if |s| < 5 || s[..5] != RowStart then None
    else
      var body := s[5..];
      var k := NameLength(body);
      if k + 3 > |body| || body[k..k + 3] != RowEnd then None
      else match ParseRows(body[k + 3..])
        case None => None
        case Some(ns) => Some([body[..k]] + ns)
  }

  /** A quoteless name is read up to the quote that follows it. */
  lemma {:induction false} NameLengthBeforeQuote(name: string, rest: string)
    requires Quoteless(name)
    ensures NameLength(name + "\"" + rest) == |name|
    decreases |name|
  {
    if name != [] {
      assert (name + "\"" + rest)[1..] == name[1..] + "\"" + rest;
      assert name[0] in name;
      NameLengthBeforeQuote(name[1..], rest);
    }
  }

  /** Reading a row off the front gives its name and the text after it. */
  lemma ParseRow(name: string, rest: string)
    requires Quoteless(name)
    ensures ParseRows(Row(name) + rest) ==
            match ParseRows(rest) case None => None case Some(ns) => Some([name] + ns)
  {
    var s := Row(name) + rest;
    var body := s[5..];
    assert body == name + "\"" + (",\n" + rest);
    NameLengthBeforeQuote(name, ",\n" + rest);
    assert body[|name|..|name| + 3] == RowEnd;
    assert body[..|name|] == name;
    assert body[|name| + 3..] == rest;
  }

  /** The generated rows read back to exactly the names, in order, when no
      name holds a double quote (as the `\w*` match of names_generator.py
      guarantees). */
  lemma {:induction false} ParseRowsOfRows(names: seq<string>)
    requires forall i :: 0 <= i < |names| ==> Quoteless(names[i])
    ensures ParseRows(Rows(names)) == Some(names)
    decreases |names|
  {
    if names != [] {
      RowsCons(names[0], names[1..]);
      assert [names[0]] + names[1..] == names;
      ParseRowsOfRows(names[1..]);
      ParseRow(names[0], Rows(names[1..]));
    }
  }

  /** The generated module is the template with the rows in its list, and
      with an empty list body when there are no names. */
  lemma GeneratedCodeParts(names: seq<string>, code: string)
    requires code == Head + Rows(names) + Tail
    requires forall i :: 0 <= i < |names| ==> Quoteless(names[i])
    ensures |code| == |Head| + |Rows(names)| + |Tail|
    ensures code[..|Head|] == Head && code[|code| - |Tail|..] == Tail
    ensures ParseRows(code[|Head|..|code| - |Tail|]) == Some(names)
    ensures names == [] ==> code == Head + Tail
  {
    assert code[|Head|..|code| - |Tail|] == Rows(names);
    ParseRowsOfRows(names);
  }
}
