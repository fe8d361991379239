/**
  The stylesheet registry of src/style.ts: `css` turns its argument into one
  stylesheet text and appends it to the module-level `stylesheets` list, and
  `apply` loads the whole list, joined by single spaces, into one provider.
  The provider and the display are left out; the text handed to
  `load_from_string` is `Stylesheets.Text`.
 */
module Style {
  import opened JsValue

  /** The two overloads of `css`: a plain string, or a tagged template with
      its string parts and the values between them. */
  datatype CssArg =
    | Plain(css: string)
    | Template(strings: seq<string>, values: seq<Value>)

  /** `values[i]`, which is `undefined` past the end of the array. */
  function ValueAt(values: seq<Value>, i: nat): (r: Value)
    ensures i < |values| ==> r == values[i]
    ensures i >= |values| ==> r == Undefined
  {
    if i < |values| then values[i] else Undefined
  }

  /** `${v ?? ""}`: a nullish value contributes nothing, every other value
      (`0` and `false` included) its `String` form. */
  function Piece(v: Value): (r: string)
    ensures IsNullish(v) ==> r == ""
    ensures !IsNullish(v) ==> r == ToText(v)
  {
    ToText(Coalesce(v, Str("")))
  }

  /** The `flatMap` step: each string part followed by the value at its index. */
  function Pieces(strings: seq<string>, values: seq<Value>): (r: seq<string>)
    ensures |r| == |strings|
    ensures forall i :: 0 <= i < |strings| ==> r[i] == strings[i] + Piece(ValueAt(values, i))
  {
    seq(|strings|, i requires 0 <= i < |strings| => strings[i] + Piece(ValueAt(values, i)))
  }

  /** `join("")` */
  function Concat(xs: seq<string>): string {
    if xs == [] then "" else xs[0] + Concat(xs[1..])
  }

  /** `join(sep)` */
  function Join(xs: seq<string>, sep: string): string {
    if xs == [] then ""
    else if |xs| == 1 then xs[0]
    else xs[0] + sep + Join(xs[1..], sep)
  }

  /** The text one `css` call appends. */
  function StyleText(arg: CssArg): string {
    match arg
    case Plain(css) => css
    case Template(strings, values) => Concat(Pieces(strings, values))
  }

  /** Reference reading of a template literal:
      `strings[0] + s(values[0]) + strings[1] + … + strings[n]`. */
  function Interleaved(strings: seq<string>, values: seq<Value>): string
    requires |strings| == |values| + 1
  {
    if values == [] then strings[0]
    else strings[0] + Piece(values[0]) + Interleaved(strings[1..], values[1..])
  }

  lemma {:induction false} PiecesTail(strings: seq<string>, values: seq<Value>)
    requires |strings| > 0 && |values| > 0
    ensures Pieces(strings, values)[1..] == Pieces(strings[1..], values[1..])
  {
    var a := Pieces(strings, values)[1..];
    var b := Pieces(strings[1..], values[1..]);
    assert |a| == |b|;
    forall i | 0 <= i < |a|
      ensures a[i] == b[i]
    {
      assert a[i] == Pieces(strings, values)[i + 1];
      assert ValueAt(values, i + 1) == ValueAt(values[1..], i);
    }
  }

  /** A tagged template with one value between each pair of string parts
      yields exactly the interleaving of parts and values. */
  lemma {:induction false} TemplateIsInterleaved(strings: seq<string>, values: seq<Value>)
    requires |strings| == |values| + 1
    ensures StyleText(Template(strings, values)) == Interleaved(strings, values)
    decreases |values|
  {
    var ps := Pieces(strings, values);
    if values == [] {
      assert ps == [strings[0] + ""];
      assert Concat(ps) == strings[0] + "" + Concat([]);
    } else {
      PiecesTail(strings, values);
      TemplateIsInterleaved(strings[1..], values[1..]);
      assert Concat(ps) == ps[0] + Concat(ps[1..]);
    }
  }

  /** Where entry `i` starts in `Join(xs, " ")`. */
  function Offset(xs: seq<string>, i: nat): nat
    requires i <= |xs|
  {
    if i == 0 then 0 else |xs[0]| + 1 + Offset(xs[1..], i - 1)
  }

  /** Every entry appears in the joined text, in insertion order, each one
      followed by a single space except the last. */
  lemma {:induction false} JoinPlacesEntries(xs: seq<string>, i: nat)
    requires i < |xs|
    ensures Offset(xs, i) + |xs[i]| <= |Join(xs, " ")|
    ensures Join(xs, " ")[Offset(xs, i)..Offset(xs, i) + |xs[i]|] == xs[i]
    ensures i + 1 < |xs| ==> Offset(xs, i) + |xs[i]| < |Join(xs, " ")|
    ensures i + 1 < |xs| ==> Join(xs, " ")[Offset(xs, i) + |xs[i]|] == ' '
  {
    var j := Join(xs, " ");
    if |xs| == 1 {
    } else if i == 0 {
      assert j == xs[0] + " " + Join(xs[1..], " ");
      assert j[..|xs[0]|] == xs[0];
    } else {
      var rest := Join(xs[1..], " ");
      assert j == xs[0] + " " + rest;
      JoinPlacesEntries(xs[1..], i - 1);
      var k := |xs[0]| + 1;
      assert Offset(xs, i) == k + Offset(xs[1..], i - 1);
      assert j[k..] == rest;
    }
  }

  /** The joined text has the entries' lengths plus one space between each
      pair of neighbours, and nothing else. */
  lemma {:induction false} JoinLength(xs: seq<string>)
    requires |xs| > 0
    ensures |Join(xs, " ")| == Offset(xs, |xs| - 1) + |xs[|xs| - 1]|
  {
    if |xs| > 1 {
      JoinLength(xs[1..]);
    }
  }

  /** Appending one entry appends a space and that entry to the joined text. */
  lemma {:induction false} JoinAppend(xs: seq<string>, x: string)
    ensures Join(xs + [x], " ") == if xs == [] then x else Join(xs, " ") + " " + x
  {
    if |xs| > 1 {
      assert (xs + [x])[1..] == xs[1..] + [x];
      JoinAppend(xs[1..], x);
    } else if |xs| == 1 {
      assert xs + [x] == [xs[0], x];
    }
  }

  /** The module-level `stylesheets` array. */
  class Stylesheets {
    var sheets: seq<string>

    constructor()
      ensures sheets == []
    {
      sheets := [];
    }

    /** `css(...)`: exactly one entry appended at the end, earlier entries
        untouched, and the loaded text grows by a space and that entry. */
    method Css(arg: CssArg)
      modifies this
      ensures sheets == old(sheets) + [StyleText(arg)]
      ensures Text() == if old(sheets) == [] then StyleText(arg)
                        else old(Text()) + " " + StyleText(arg)
    {
      JoinAppend(sheets, StyleText(arg));
      sheets := sheets + [StyleText(arg)];
    }

    /** `stylesheets.join(" ")`, the text `apply` loads. */
    function Text(): string
      reads this
    {
      Join(sheets, " ")
    }
  }

  /** `css` called with a plain string and then a template: both texts are
      kept, in call order, with a single space between them, and the value
      `0` is written out rather than dropped. */
  method TwoSheets() returns (text: string)
    ensures text == "a{} b{margin:0}"
  {
    var s := new Stylesheets();
    var plain := Plain("a{}");
    var template := Template(["b{margin:", "}"], [Num(0)]);
    s.Css(plain);
    assert s.Text() == "a{}";
    s.Css(template);
    assert StyleText(template) == "b{margin:0}" by {
      TemplateIsInterleaved(["b{margin:", "}"], [Num(0)]);
      assert Piece(Num(0)) == "0";
      assert Interleaved(["}"], []) == "}";
    }
    text := s.Text();
    assert text == "a{}" + " " + "b{margin:0}";
  }
}
