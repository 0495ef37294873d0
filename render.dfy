/** The shape shared by the message bodies: a heading followed by one line
    per named field. A body is a rendering of a field list; the lemmas here
    say where each field's line sits in the rendered body. */
module Render {

  /** A named value; `ownLine` puts the value on its own HTML line (after
      a <br>) instead of after a space. */
  datatype Field = Field(name: string, value: string, ownLine: bool)

  function Concat(parts: seq<string>): string {
    if parts == [] then "" else Concat(parts[..|parts| - 1]) + parts[|parts| - 1]
  }

  lemma {:induction false} ConcatSplit(parts: seq<string>, i: nat)
    requires i <= |parts|
    ensures Concat(parts) == Concat(parts[..i]) + Concat(parts[i..])
  {
    if i == |parts| {
      assert parts[..i] == parts && parts[i..] == [];
    } else {
      var n := |parts| - 1;
      ConcatSplit(parts[..n], i);
      assert parts[..n][..i] == parts[..i];
      assert parts[..n][i..] == parts[i..][..|parts[i..]| - 1];
    }
  }

  /** Concat of a prefix is the shorter prefix followed by its last part. */
  lemma PrefixStep(parts: seq<string>, k: nat)
    requires 0 < k <= |parts|
    ensures Concat(parts[..k]) == Concat(parts[..k - 1]) + parts[k - 1]
  {
    assert parts[..k][..k - 1] == parts[..k - 1];
  }

  /** Where part i starts in Concat(parts). */
  function Offset(parts: seq<string>, i: nat): nat
    requires i <= |parts|
  {
    |Concat(parts[..i])|
  }

  /** Part i occupies Concat(parts) from Offset(parts, i) up to where part
      i + 1 starts: the parts appear in order, each right after the last. */
  lemma {:induction false} PartAt(parts: seq<string>, i: nat)
    requires i < |parts|
    ensures Offset(parts, i) + |parts[i]| == Offset(parts, i + 1) <= |Concat(parts)|
    ensures Concat(parts)[Offset(parts, i)..Offset(parts, i + 1)] == parts[i]
  {
    ConcatSplit(parts[..i + 1], i);
    assert parts[..i + 1][..i] == parts[..i];
    assert parts[..i + 1][i..] == [parts[i]];
    assert Concat([parts[i]]) == parts[i] + Concat([]);
    ConcatSplit(parts, i + 1);
  }

  function TextLine(f: Field): string {
    "\n" + f.name + ": " + f.value
  }

  function HtmlLine(f: Field): string {
    "\n        <p><strong>" + f.name + ":</strong>" + (if f.ownLine then "<br>" else " ") + f.value + "</p>"
  }

  function TextLines(fields: seq<Field>): seq<string> {
    seq(|fields|, i requires 0 <= i < |fields| => TextLine(fields[i]))
  }

  function HtmlLines(fields: seq<Field>): seq<string> {
    seq(|fields|, i requires 0 <= i < |fields| => HtmlLine(fields[i]))
  }

  /** Both template literals end with a line break and the indentation of
      the closing backquote. */
  const Trailer := "\n      "

  function TextHead(heading: string): string {
    "\n" + heading + "\n"
  }

  function HtmlHead(heading: string): string {
    "\n        <h2>" + heading + "</h2>"
  }

  /** The pieces of a plain-text body: the heading, one "Name: value" line
      per field, the trailer. */
  function TextParts(heading: string, fields: seq<Field>): seq<string> {
    [TextHead(heading)] + TextLines(fields) + [Trailer]
  }

  /** The pieces of an HTML body: the heading as <h2>, one paragraph per
      field, the trailer. */
  function HtmlParts(heading: string, fields: seq<Field>): seq<string> {
    [HtmlHead(heading)] + HtmlLines(fields) + [Trailer]
  }

  function PlainText(heading: string, fields: seq<Field>): string {
    Concat(TextParts(heading, fields))
  }

  function Html(heading: string, fields: seq<Field>): string {
    Concat(HtmlParts(heading, fields))
  }

  /** Field i's "Name: value" line sits in the plain-text body from
      Offset(parts, i + 1), and field i + 1 starts where it ends. */
  lemma {:induction false} PlainTextLineAt(heading: string, fields: seq<Field>, i: nat)
    requires i < |fields|
    ensures var parts := TextParts(heading, fields);
      && Offset(parts, i + 2) == Offset(parts, i + 1) + |TextLine(fields[i])| <= |PlainText(heading, fields)|
      && PlainText(heading, fields)[Offset(parts, i + 1)..Offset(parts, i + 2)] == TextLine(fields[i])
  {
    var parts := TextParts(heading, fields);
    assert parts[i + 1] == TextLine(fields[i]);
    PartAt(parts, i + 1);
  }

  /** Field i's HTML paragraph sits in the HTML body from Offset(parts, i + 1),
      and field i + 1 starts where it ends. */
  lemma {:induction false} HtmlLineAt(heading: string, fields: seq<Field>, i: nat)
    requires i < |fields|
    ensures var parts := HtmlParts(heading, fields);
      && Offset(parts, i + 2) == Offset(parts, i + 1) + |HtmlLine(fields[i])| <= |Html(heading, fields)|
      && Html(heading, fields)[Offset(parts, i + 1)..Offset(parts, i + 2)] == HtmlLine(fields[i])
  {
    var parts := HtmlParts(heading, fields);
    assert parts[i + 1] == HtmlLine(fields[i]);
    PartAt(parts, i + 1);
  }

  /** A text body of seven fields, written out: the heading, the seven
      lines in order, the trailer. */
  lemma PlainTextOfSeven(heading: string, f: seq<Field>)
    requires |f| == 7
    ensures PlainText(heading, f)
         == TextHead(heading) + TextLine(f[0]) + TextLine(f[1]) + TextLine(f[2]) + TextLine(f[3])
            + TextLine(f[4]) + TextLine(f[5]) + TextLine(f[6]) + Trailer
  {
    var p := TextParts(heading, f);
    assert p == [TextHead(heading), TextLine(f[0]), TextLine(f[1]), TextLine(f[2]), TextLine(f[3]),
                 TextLine(f[4]), TextLine(f[5]), TextLine(f[6]), Trailer];
    Unfold9(p);
  }

  /** A text body of eight fields, written out. */
  lemma PlainTextOfEight(heading: string, f: seq<Field>)
    requires |f| == 8
    ensures PlainText(heading, f)
         == TextHead(heading) + TextLine(f[0]) + TextLine(f[1]) + TextLine(f[2]) + TextLine(f[3])
            + TextLine(f[4]) + TextLine(f[5]) + TextLine(f[6]) + TextLine(f[7]) + Trailer
  {
    var p := TextParts(heading, f);
    assert p == [TextHead(heading), TextLine(f[0]), TextLine(f[1]), TextLine(f[2]), TextLine(f[3]),
                 TextLine(f[4]), TextLine(f[5]), TextLine(f[6]), TextLine(f[7]), Trailer];
    Unfold9(p[..9]);
    PrefixStep(p, 10);
    assert p[..10] == p;
  }

  /** An HTML body of seven fields, written out. */
  lemma HtmlOfSeven(heading: string, f: seq<Field>)
    requires |f| == 7
    ensures Html(heading, f)
         == HtmlHead(heading) + HtmlLine(f[0]) + HtmlLine(f[1]) + HtmlLine(f[2]) + HtmlLine(f[3])
            + HtmlLine(f[4]) + HtmlLine(f[5]) + HtmlLine(f[6]) + Trailer
  {
    var p := HtmlParts(heading, f);
    assert p == [HtmlHead(heading), HtmlLine(f[0]), HtmlLine(f[1]), HtmlLine(f[2]), HtmlLine(f[3]),
                 HtmlLine(f[4]), HtmlLine(f[5]), HtmlLine(f[6]), Trailer];
    Unfold9(p);
  }

  /** Concat of nine parts, written out. */
  lemma Unfold9(p: seq<string>)
    requires |p| == 9
    ensures Concat(p) == p[0] + p[1] + p[2] + p[3] + p[4] + p[5] + p[6] + p[7] + p[8]
  {
    assert p[..0] == [];
    PrefixStep(p, 1);
    assert Concat(p[..1]) == p[0];
    PrefixStep(p, 2);
    assert Concat(p[..2]) == p[0] + p[1];
    PrefixStep(p, 3);
    assert Concat(p[..3]) == p[0] + p[1] + p[2];
    PrefixStep(p, 4);
    assert Concat(p[..4]) == p[0] + p[1] + p[2] + p[3];
    PrefixStep(p, 5);
    assert Concat(p[..5]) == p[0] + p[1] + p[2] + p[3] + p[4];
    PrefixStep(p, 6);
    assert Concat(p[..6]) == p[0] + p[1] + p[2] + p[3] + p[4] + p[5];
    PrefixStep(p, 7);
    assert Concat(p[..7]) == p[0] + p[1] + p[2] + p[3] + p[4] + p[5] + p[6];
    PrefixStep(p, 8);
    assert Concat(p[..8]) == p[0] + p[1] + p[2] + p[3] + p[4] + p[5] + p[6] + p[7];
    PrefixStep(p, 9);
    assert Concat(p[..9]) == p[0] + p[1] + p[2] + p[3] + p[4] + p[5] + p[6] + p[7] + p[8];
    assert p[..9] == p;
  }
}
