/**
 * The tag-text serialiser `dict2xml` of the EDFS emulator (homework-2/edfs.py).
 *
 * `Render` is the serialiser as a recursive function and is the specification;
 * `Dict2Xml` is the same procedure written the way the source writes it, with a
 * local list `res` filled by append loops and joined with newlines, and is proved
 * to agree with `Render`. The lemmas state what a rendering looks like: scalars,
 * empty containers, dicts and lists (`ScalarLine`, `EmptyContainers`, `DictLines`,
 * `ListLines`), the rendering as a sequence of typed lines (`RenderLayout`), the
 * indentation of every scalar by its dict depth (`LeafIndentation`), and that the
 * renderer writes no `/` of its own, so closing lines repeat their opening lines
 * (`NoSlashAdded`).
 */
module Xml {

  /** A JSON-like value as `dict2xml` receives it. `Obj` is a dict: its (key, value)
      pairs in the dict's iteration order, which for a Python dict is insertion order
      (keys are therefore distinct, although rendering never relies on it). `Arr` is a
      list. Everything else is a `Scalar`, carried as the text that f-string formatting
      produces for it; dict keys are carried the same way. */
  datatype Value =
    | Obj(entries: seq<(string, Value)>)
    | Arr(items: seq<Value>)
    | Scalar(text: string)

  /** Python's `sep.join(parts)`. */
  function Join(sep: string, parts: seq<string>): string
  {
    if |parts| == 0 then ""
    else if |parts| == 1 then parts[0]
    else parts[0] + sep + Join(sep, parts[1..])
  }

  /** The line written before and, identically, after a dict entry's contents. */
  function Tag(pad: string, name: string): string
  {
    pad + "<" + name + ">"
  }

  // ---------------------------------------------------------------------------
  // The serialiser
  // ---------------------------------------------------------------------------

  /** `dict2xml(v, pad)`. */
  function Render(v: Value, pad: string): string
    decreases v
  {
    match v
    case Obj(es) => Join("\n", ObjParts(es, pad))
    case Arr(xs) => Join("\n", ArrParts(xs, pad))
    case Scalar(t) => pad + t
  }

  /** The list `res` that the dict branch builds before joining it. */
  function ObjParts(es: seq<(string, Value)>, pad: string): seq<string>
    decreases es
  {
    if es == [] then []
    else
      assert es[0] in es && es[0].1 < es[0];
      [Tag(pad, es[0].0), Render(es[0].1, "\t" + pad), Tag(pad, es[0].0)] + ObjParts(es[1..], pad)
  }

  /** The list `res` that the list branch builds before joining it. */
  function ArrParts(xs: seq<Value>, pad: string): seq<string>
    decreases xs
  {
    if xs == [] then [] else [Render(xs[0], pad)] + ArrParts(xs[1..], pad)
  }

  /** `dict2xml` as the source writes it: append loops into `res`, then a newline join. */
  method Dict2Xml(obj: Value, linePadding: string) returns (s: string)
    ensures s == Render(obj, linePadding)
    decreases obj
  {
    var res: seq<string> := [];
    match obj {
      case Obj(es) =>
        var i := 0;
        while i < |es|
          invariant 0 <= i <= |es|
          invariant res == ObjParts(es[..i], linePadding)
        {
          var tagName := es[i].0;
          var subObj := es[i].1;
          assert es[i] in es && subObj < es[i];
          res := res + [Tag(linePadding, tagName)];
          var sub := Dict2Xml(subObj, "\t" + linePadding);
          res := res + [sub];
          res := res + [Tag(linePadding, tagName)];
          ObjPartsSnoc(es[..i], es[i], linePadding);
          assert es[..i + 1] == es[..i] + [es[i]];
          i := i + 1;
        }
        assert es[..i] == es;
        s := Join("\n", res);
      case Arr(xs) =>
        var i := 0;
        while i < |xs|
          invariant 0 <= i <= |xs|
          invariant res == ArrParts(xs[..i], linePadding)
        {
          assert xs[i] in xs;
          var sub := Dict2Xml(xs[i], linePadding);
          res := res + [sub];
          ArrPartsSnoc(xs[..i], xs[i], linePadding);
          assert xs[..i + 1] == xs[..i] + [xs[i]];
          i := i + 1;
        }
        assert xs[..i] == xs;
        s := Join("\n", res);
      case Scalar(t) =>
        s := linePadding + t;
    }
  }

  lemma {:induction false} ObjPartsSnoc(es: seq<(string, Value)>, e: (string, Value), pad: string)
    ensures ObjParts(es + [e], pad)
         == ObjParts(es, pad) + [Tag(pad, e.0), Render(e.1, "\t" + pad), Tag(pad, e.0)]
    decreases |es|
  {
    if es == [] {
      assert es + [e] == [e];
    } else {
      assert (es + [e])[0] == es[0];
      assert (es + [e])[1..] == es[1..] + [e];
      ObjPartsSnoc(es[1..], e, pad);
    }
  }

  lemma {:induction false} ArrPartsSnoc(xs: seq<Value>, x: Value, pad: string)
    ensures ArrParts(xs + [x], pad) == ArrParts(xs, pad) + [Render(x, pad)]
    decreases |xs|
  {
    if xs == [] {
      assert xs + [x] == [x];
    } else {
      assert (xs + [x])[0] == xs[0];
      assert (xs + [x])[1..] == xs[1..] + [x];
      ArrPartsSnoc(xs[1..], x, pad);
    }
  }

  // ---------------------------------------------------------------------------
  // The shape of each case
  // ---------------------------------------------------------------------------

  /** A scalar is its padding followed by its text, with no newline or tag added. */
  lemma ScalarLine(t: string, pad: string)
    ensures Render(Scalar(t), pad) == pad + t
    ensures '\n' !in pad && '\n' !in t ==> '\n' !in Render(Scalar(t), pad)
  {
  }

  /** An empty dict and an empty list both render to the empty string, whatever the padding. */
  lemma EmptyContainers(pad: string)
    ensures Render(Obj([]), pad) == ""
    ensures Render(Arr([]), pad) == ""
  {
  }

  /** A dict renders as the newline-join of three lines per key, in iteration order:
      the opening line, the value rendered one tab deeper, and a closing line that is
      the opening line again. */
  lemma {:induction false} DictLines(es: seq<(string, Value)>, pad: string)
    ensures Render(Obj(es), pad) == Join("\n", ObjParts(es, pad))
    ensures |ObjParts(es, pad)| == 3 * |es|
    ensures forall i :: 0 <= i < |es| ==>
      ObjParts(es, pad)[3 * i] == Tag(pad, es[i].0) &&
      ObjParts(es, pad)[3 * i + 1] == Render(es[i].1, "\t" + pad) &&
      ObjParts(es, pad)[3 * i + 2] == ObjParts(es, pad)[3 * i]
    decreases |es|
  {
    if es != [] {
      DictLines(es[1..], pad);
      var head := [Tag(pad, es[0].0), Render(es[0].1, "\t" + pad), Tag(pad, es[0].0)];
      assert ObjParts(es, pad) == head + ObjParts(es[1..], pad);
      forall i | 1 <= i < |es|
        ensures ObjParts(es, pad)[3 * i] == Tag(pad, es[i].0)
        ensures ObjParts(es, pad)[3 * i + 1] == Render(es[i].1, "\t" + pad)
        ensures ObjParts(es, pad)[3 * i + 2] == ObjParts(es, pad)[3 * i]
      {
        assert es[i] == es[1..][i - 1];
        assert 3 * i == 3 * (i - 1) + 3;
      }
    }
  }

  /** A list renders as the newline-join of its elements' renderings, in list order, at
      the list's own padding: no wrapper line and no extra indentation. */
  lemma {:induction false} ListLines(xs: seq<Value>, pad: string)
    ensures Render(Arr(xs), pad) == Join("\n", ArrParts(xs, pad))
    ensures |ArrParts(xs, pad)| == |xs|
    ensures forall i :: 0 <= i < |xs| ==> ArrParts(xs, pad)[i] == Render(xs[i], pad)
    decreases |xs|
  {
    if xs != [] {
      ListLines(xs[1..], pad);
      forall i | 1 <= i < |xs|
        ensures ArrParts(xs, pad)[i] == Render(xs[i], pad)
      {
        assert xs[i] == xs[1..][i - 1];
      }
    }
  }

  /** A one-element list is transparent: it renders exactly as its element. */
  lemma SingletonList(v: Value, pad: string)
    ensures Render(Arr([v]), pad) == Render(v, pad)
  {
    assert [v][1..] == [];
    assert ArrParts([v], pad) == [Render(v, pad)];
  }

  /** A dict with one key renders as the opening line, the value one tab deeper and
      the closing line, which is the opening line again. */
  lemma OneKeyDict(k: string, v: Value, pad: string)
    ensures Render(Obj([(k, v)]), pad)
         == Tag(pad, k) + "\n" + Render(v, "\t" + pad) + "\n" + Tag(pad, k)
  {
    assert [(k, v)][1..] == [];
    var parts := [Tag(pad, k), Render(v, "\t" + pad), Tag(pad, k)];
    assert ObjParts([(k, v)], pad) == parts;
    assert parts[1..][1..] == [Tag(pad, k)];
    assert Join("\n", parts[1..]) == Render(v, "\t" + pad) + "\n" + Tag(pad, k);
  }

  /** A worked example: the five lines of `{"a": {"b": 1}}`. Closing lines carry no `/`
      and each dict level adds one tab. */
  lemma NestedExample()
    ensures Render(Obj([("a", Obj([("b", Scalar("1"))]))]), "")
         == Join("\n", ["<a>", "\t<b>", "\t\t1", "\t<b>", "<a>"])
  {
    var inner := Obj([("b", Scalar("1"))]);
    var v := Obj([("a", inner)]);
    assert [("b", Scalar("1"))][1..] == [] && [("a", inner)][1..] == [];
    var innerLines := [Open("\t", "b"), Text("\t\t", "1"), Close("\t", "b")];
    assert "\t" + "\t" == "\t\t" && "\t" + "" == "\t";
    assert EntriesLayout([("b", Scalar("1"))], "\t")
        == [Open("\t", "b")] + Layout(Scalar("1"), "\t\t") + [Close("\t", "b")] + EntriesLayout([], "\t");
    assert Layout(inner, "\t") == innerLines;
    var lines := [Open("", "a")] + innerLines + [Close("", "a")];
    assert EntriesLayout([("a", inner)], "")
        == [Open("", "a")] + Layout(inner, "\t") + [Close("", "a")] + EntriesLayout([], "");
    assert Layout(v, "") == lines;
    assert LineText(Open("", "a")) == "<a>" && LineText(Open("\t", "b")) == "\t<b>";
    assert LineText(Text("\t\t", "1")) == "\t\t1";
    assert Texts(lines) == ["<a>", "\t<b>", "\t\t1", "\t<b>", "<a>"];
    RenderLayout(v, "");
  }

  // ---------------------------------------------------------------------------
  // Newline-join facts
  // ---------------------------------------------------------------------------

  lemma {:induction false} JoinAppend(sep: string, a: seq<string>, b: seq<string>)
    requires a != [] && b != []
    ensures Join(sep, a + b) == Join(sep, a) + sep + Join(sep, b)
    decreases |a|
  {
    if |a| == 1 {
      assert (a + b)[1..] == b;
    } else {
      assert (a + b)[1..] == a[1..] + b;
      JoinAppend(sep, a[1..], b);
    }
  }

  lemma {:induction false} JoinAvoids(sep: string, parts: seq<string>, c: char)
    requires c !in sep
    requires forall i :: 0 <= i < |parts| ==> c !in parts[i]
    ensures c !in Join(sep, parts)
    decreases |parts|
  {
    if |parts| > 1 {
      JoinAvoids(sep, parts[1..], c);
    }
  }

  // ---------------------------------------------------------------------------
  // The rendering as typed lines
  // ---------------------------------------------------------------------------

  /** One line of a rendering: a dict key's opening or closing line, a scalar's line,
      or the empty line left by an empty container. */
  datatype Line =
    | Open(pad: string, name: string)
    | Close(pad: string, name: string)
    | Text(pad: string, text: string)
    | Blank

  function LineText(l: Line): string
  {
    match l
    case Open(pad, name) => Tag(pad, name)
    case Close(pad, name) => Tag(pad, name)
    case Text(pad, t) => pad + t
    case Blank => ""
  }

  function Texts(ls: seq<Line>): (r: seq<string>)
    ensures |r| == |ls| && forall i :: 0 <= i < |ls| ==> r[i] == LineText(ls[i])
  {
    if ls == [] then [] else [LineText(ls[0])] + Texts(ls[1..])
  }

  /** The lines of a rendering, structurally: never empty, since an empty container
      still contributes one (blank) part to its parent's join. */
  function Layout(v: Value, pad: string): (ls: seq<Line>)
    ensures ls != []
    decreases v
  {
    match v
    case Obj(es) => if es == [] then [Blank] else EntriesLayout(es, pad)
    case Arr(xs) => if xs == [] then [Blank] else ItemsLayout(xs, pad)
    case Scalar(t) => [Text(pad, t)]
  }

  function EntriesLayout(es: seq<(string, Value)>, pad: string): (ls: seq<Line>)
    ensures es != [] ==> ls != []
    decreases es
  {
    if es == [] then []
    else
      assert es[0] in es && es[0].1 < es[0];
      [Open(pad, es[0].0)] + Layout(es[0].1, "\t" + pad) + [Close(pad, es[0].0)]
      + EntriesLayout(es[1..], pad)
  }

  function ItemsLayout(xs: seq<Value>, pad: string): (ls: seq<Line>)
    ensures xs != [] ==> ls != []
    decreases xs
  {
    if xs == [] then [] else Layout(xs[0], pad) + ItemsLayout(xs[1..], pad)
  }

  lemma TextsAppend(a: seq<Line>, b: seq<Line>)
    ensures Texts(a + b) == Texts(a) + Texts(b)
  {
  }

  /** The rendering is the newline-join of the texts of its typed lines. */
  lemma {:induction false} RenderLayout(v: Value, pad: string)
    ensures Render(v, pad) == Join("\n", Texts(Layout(v, pad)))
    decreases v
  {
    match v
    case Obj(es) =>
      if es != [] { EntriesRenderLayout(es, pad); }
    case Arr(xs) =>
      if xs != [] { ItemsRenderLayout(xs, pad); }
    case Scalar(t) =>
  }

  lemma {:induction false} EntriesRenderLayout(es: seq<(string, Value)>, pad: string)
    requires es != []
    ensures Join("\n", ObjParts(es, pad)) == Join("\n", Texts(EntriesLayout(es, pad)))
    decreases es
  {
    var k, sub := es[0].0, es[0].1;
    assert es[0] in es && sub < es[0];
    RenderLayout(sub, "\t" + pad);
    var inner := Texts(Layout(sub, "\t" + pad));
    var triple := [Tag(pad, k), Render(sub, "\t" + pad), Tag(pad, k)];
    var framed := [Open(pad, k)] + Layout(sub, "\t" + pad) + [Close(pad, k)];
    // The three parts of one entry join exactly as the framed lines do.
    TextsAppend([Open(pad, k)] + Layout(sub, "\t" + pad), [Close(pad, k)]);
    TextsAppend([Open(pad, k)], Layout(sub, "\t" + pad));
    assert Texts(framed) == [Tag(pad, k)] + inner + [Tag(pad, k)];
    JoinAppend("\n", [Tag(pad, k)] + inner, [Tag(pad, k)]);
    JoinAppend("\n", [Tag(pad, k)], inner);
    assert triple == [Tag(pad, k)] + [Render(sub, "\t" + pad)] + [Tag(pad, k)];
    JoinAppend("\n", [Tag(pad, k)] + [Render(sub, "\t" + pad)], [Tag(pad, k)]);
    JoinAppend("\n", [Tag(pad, k)], [Render(sub, "\t" + pad)]);
    assert Join("\n", triple) == Join("\n", Texts(framed));
    if es[1..] == [] {
      assert ObjParts(es, pad) == triple;
      assert EntriesLayout(es, pad) == framed;
    } else {
      EntriesRenderLayout(es[1..], pad);
      var rest := Texts(EntriesLayout(es[1..], pad));
      assert ObjParts(es, pad) == triple + ObjParts(es[1..], pad);
      assert EntriesLayout(es, pad) == framed + EntriesLayout(es[1..], pad);
      TextsAppend(framed, EntriesLayout(es[1..], pad));
      JoinAppend("\n", triple, ObjParts(es[1..], pad));
      JoinAppend("\n", Texts(framed), rest);
    }
  }

  lemma {:induction false} ItemsRenderLayout(xs: seq<Value>, pad: string)
    requires xs != []
    ensures Join("\n", ArrParts(xs, pad)) == Join("\n", Texts(ItemsLayout(xs, pad)))
    decreases xs
  {
    RenderLayout(xs[0], pad);
    if xs[1..] == [] {
      assert ArrParts(xs, pad) == [Render(xs[0], pad)];
      assert ItemsLayout(xs, pad) == Layout(xs[0], pad);
    } else {
      ItemsRenderLayout(xs[1..], pad);
      assert ArrParts(xs, pad) == [Render(xs[0], pad)] + ArrParts(xs[1..], pad);
      TextsAppend(Layout(xs[0], pad), ItemsLayout(xs[1..], pad));
      JoinAppend("\n", [Render(xs[0], pad)], ArrParts(xs[1..], pad));
      JoinAppend("\n", Texts(Layout(xs[0], pad)), Texts(ItemsLayout(xs[1..], pad)));
    }
  }

  // ---------------------------------------------------------------------------
  // Indentation by dict depth
  // ---------------------------------------------------------------------------

  /** `n` tab characters. */
  function Tabs(n: nat): (r: string)
    ensures |r| == n && forall i :: 0 <= i < n ==> r[i] == '\t'
  {
    if n == 0 then "" else Tabs(n - 1) + "\t"
  }

  /** Every scalar of a value, in document order, with the number of dicts that
      enclose it inside the value: lists do not count. */
  function Leaves(v: Value): seq<(nat, string)>
    decreases v
  {
    match v
    case Obj(es) => EntryLeaves(es)
    case Arr(xs) => ItemLeaves(xs)
    case Scalar(t) => [(0, t)]
  }

  function EntryLeaves(es: seq<(string, Value)>): seq<(nat, string)>
    decreases es
  {
    if es == [] then []
    else
      assert es[0] in es && es[0].1 < es[0];
      Deeper(Leaves(es[0].1)) + EntryLeaves(es[1..])
  }

  function ItemLeaves(xs: seq<Value>): seq<(nat, string)>
    decreases xs
  {
    if xs == [] then [] else Leaves(xs[0]) + ItemLeaves(xs[1..])
  }

  /** One more enclosing dict for every leaf. */
  function Deeper(ls: seq<(nat, string)>): seq<(nat, string)>
  {
    if ls == [] then [] else [(ls[0].0 + 1, ls[0].1)] + Deeper(ls[1..])
  }

  /** The scalar lines leaves at those depths get under padding `pad`. */
  function Indented(ls: seq<(nat, string)>, pad: string): seq<Line>
  {
    if ls == [] then [] else [Text(Tabs(ls[0].0) + pad, ls[0].1)] + Indented(ls[1..], pad)
  }

  /** The scalar lines of a layout, in order. */
  function TextLines(ls: seq<Line>): seq<Line>
  {
    if ls == [] then []
    else (if ls[0].Text? then [ls[0]] else []) + TextLines(ls[1..])
  }

  lemma {:induction false} TextLinesAppend(a: seq<Line>, b: seq<Line>)
    ensures TextLines(a + b) == TextLines(a) + TextLines(b)
    decreases |a|
  {
    if a != [] {
      assert (a + b)[0] == a[0];
      assert (a + b)[1..] == a[1..] + b;
      TextLinesAppend(a[1..], b);
    } else {
      assert a + b == b;
    }
  }

  lemma {:induction false} IndentedAppend(a: seq<(nat, string)>, b: seq<(nat, string)>, pad: string)
    ensures Indented(a + b, pad) == Indented(a, pad) + Indented(b, pad)
    decreases |a|
  {
    if a != [] {
      assert (a + b)[0] == a[0];
      assert (a + b)[1..] == a[1..] + b;
      IndentedAppend(a[1..], b, pad);
    } else {
      assert a + b == b;
    }
  }

  /** One more enclosing dict is the same as one more tab in front of the padding. */
  lemma {:induction false} IndentedDeeper(ls: seq<(nat, string)>, pad: string)
    ensures Indented(Deeper(ls), pad) == Indented(ls, "\t" + pad)
    decreases |ls|
  {
    if ls != [] {
      IndentedDeeper(ls[1..], pad);
      assert Tabs(ls[0].0 + 1) + pad == Tabs(ls[0].0) + ("\t" + pad);
    }
  }

  /** Every scalar line of a rendering, in order, is padded by the caller's padding plus
      one tab per enclosing dict: with the default padding `""`, a scalar at dict depth
      `d` is preceded by exactly `d` tabs. */
  lemma {:induction false} LeafIndentation(v: Value, pad: string)
    ensures TextLines(Layout(v, pad)) == Indented(Leaves(v), pad)
    decreases v
  {
    match v
    case Obj(es) =>
      if es != [] { EntriesIndentation(es, pad); }
    case Arr(xs) =>
      if xs != [] { ItemsIndentation(xs, pad); }
    case Scalar(t) =>
      assert Tabs(0) + pad == pad;
  }

  lemma {:induction false} EntriesIndentation(es: seq<(string, Value)>, pad: string)
    ensures TextLines(EntriesLayout(es, pad)) == Indented(EntryLeaves(es), pad)
    decreases es
  {
    if es != [] {
      var k, sub := es[0].0, es[0].1;
      assert es[0] in es && sub < es[0];
      var inner := Layout(sub, "\t" + pad);
      var rest := EntriesLayout(es[1..], pad);
      assert EntriesLayout(es, pad) == [Open(pad, k)] + (inner + ([Close(pad, k)] + rest));
      TextLinesAppend([Open(pad, k)], inner + ([Close(pad, k)] + rest));
      TextLinesAppend(inner, [Close(pad, k)] + rest);
      TextLinesAppend([Close(pad, k)], rest);
      LeafIndentation(sub, "\t" + pad);
      EntriesIndentation(es[1..], pad);
      IndentedDeeper(Leaves(sub), pad);
      IndentedAppend(Deeper(Leaves(sub)), EntryLeaves(es[1..]), pad);
    }
  }

  lemma {:induction false} ItemsIndentation(xs: seq<Value>, pad: string)
    ensures TextLines(ItemsLayout(xs, pad)) == Indented(ItemLeaves(xs), pad)
    decreases xs
  {
    if xs != [] {
      TextLinesAppend(Layout(xs[0], pad), ItemsLayout(xs[1..], pad));
      LeafIndentation(xs[0], pad);
      ItemsIndentation(xs[1..], pad);
      IndentedAppend(Leaves(xs[0]), ItemLeaves(xs[1..]), pad);
    }
  }

  // ---------------------------------------------------------------------------
  // Closing lines are written as opening lines
  // ---------------------------------------------------------------------------

  /** No key and no scalar text of `v` contains `/`. */
  predicate SlashFree(v: Value)
    decreases v
  {
    match v
    case Obj(es) => EntriesSlashFree(es)
    case Arr(xs) => ItemsSlashFree(xs)
    case Scalar(t) => '/' !in t
  }

  predicate EntriesSlashFree(es: seq<(string, Value)>)
    decreases es
  {
    es == [] ||
    (assert es[0] in es && es[0].1 < es[0];
     '/' !in es[0].0 && SlashFree(es[0].1) && EntriesSlashFree(es[1..]))
  }

  predicate ItemsSlashFree(xs: seq<Value>)
    decreases xs
  {
    xs == [] || (SlashFree(xs[0]) && ItemsSlashFree(xs[1..]))
  }

  /** The renderer writes no `/` of its own: closing lines are `<tag>`, exactly like the
      opening lines, so a rendering has a `/` only where a key, a scalar or the padding
      brought one. */
  lemma {:induction false} NoSlashAdded(v: Value, pad: string)
    requires '/' !in pad && SlashFree(v)
    ensures '/' !in Render(v, pad)
    decreases v
  {
    match v
    case Obj(es) =>
      EntriesNoSlash(es, pad);
      JoinAvoids("\n", ObjParts(es, pad), '/');
    case Arr(xs) =>
      ItemsNoSlash(xs, pad);
      JoinAvoids("\n", ArrParts(xs, pad), '/');
    case Scalar(t) =>
  }

  lemma {:induction false} EntriesNoSlash(es: seq<(string, Value)>, pad: string)
    requires '/' !in pad && EntriesSlashFree(es)
    ensures forall i :: 0 <= i < |ObjParts(es, pad)| ==> '/' !in ObjParts(es, pad)[i]
    decreases es
  {
    if es != [] {
      var k, sub := es[0].0, es[0].1;
      assert es[0] in es && sub < es[0];
      NoSlashAdded(sub, "\t" + pad);
      EntriesNoSlash(es[1..], pad);
      var parts := ObjParts(es, pad);
      forall i | 0 <= i < |parts| ensures '/' !in parts[i] {
        if i >= 3 {
          assert parts[i] == ObjParts(es[1..], pad)[i - 3];
        }
      }
    }
  }

  lemma {:induction false} ItemsNoSlash(xs: seq<Value>, pad: string)
    requires '/' !in pad && ItemsSlashFree(xs)
    ensures forall i :: 0 <= i < |ArrParts(xs, pad)| ==> '/' !in ArrParts(xs, pad)[i]
    decreases xs
  {
    if xs != [] {
      NoSlashAdded(xs[0], pad);
      ItemsNoSlash(xs[1..], pad);
      var parts := ArrParts(xs, pad);
      forall i | 0 <= i < |parts| ensures '/' !in parts[i] {
        if i >= 1 {
          assert parts[i] == ArrParts(xs[1..], pad)[i - 1];
        }
      }
    }
  }
}
