/** Serialised messages, the write pump's newline-separated frames, and the browser's splitting of them. */
module Framing {

  // ---- the frame ----

  /** Messages of one frame, one per line. */
  function Join(ms: seq<string>): string {
    if ms == [] then "" else if |ms| == 1 then ms[0] else Join(ms[..|ms| - 1]) + "\n" + ms[|ms| - 1]
  }

  /** JavaScript's `split` on newlines: one more piece than there are newlines. */
  function Split(s: string): (r: seq<string>)
    ensures r != []
  {
    if s == "" then [""]
    else
      var rest := Split(s[1..]);
      if s[0] == '\n' then [""] + rest else [[s[0]] + rest[0]] + rest[1..]
  }

  /** `filter(Boolean)`. */
  function NonEmpty(pieces: seq<string>): seq<string> {
    if pieces == [] then [] else (if pieces[0] == "" then [] else [pieces[0]]) + NonEmpty(pieces[1..])
  }

  /** What the browser makes of a frame. */
  function Lines(frame: string): seq<string> {
    NonEmpty(Split(frame))
  }

  /** A message that survives framing. */
  predicate WireSafe(m: string) {
    m != "" && '\n' !in m
  }

  predicate AllSafe(ms: seq<string>) {
    forall i :: 0 <= i < |ms| ==> WireSafe(ms[i])
  }

  lemma {:induction false} SplitAtNewline(a: string, b: string)
    ensures Split(a + "\n" + b) == Split(a) + Split(b)
  {
    var s := a + "\n" + b;
    if a == "" {
      assert s[1..] == b;
    } else {
      assert s[1..] == a[1..] + "\n" + b;
      SplitAtNewline(a[1..], b);
    }
  }

  lemma {:induction false} SplitOneLine(a: string)
    requires '\n' !in a
    ensures Split(a) == [a]
  {
    if a != "" {
      SplitOneLine(a[1..]);
      assert a == [a[0]] + a[1..];
    }
  }

  lemma {:induction false} NonEmptyOfBoth(a: seq<string>, b: seq<string>)
    ensures NonEmpty(a + b) == NonEmpty(a) + NonEmpty(b)
  {
    if a == [] {
      assert a + b == b;
    } else {
      assert (a + b)[1..] == a[1..] + b;
      NonEmptyOfBoth(a[1..], b);
    }
  }

  lemma {:induction false} PiecesHaveNoNewline(s: string)
    ensures forall i :: 0 <= i < |Split(s)| ==> '\n' !in Split(s)[i]
  {
    if s != "" {
      PiecesHaveNoNewline(s[1..]);
    }
  }

  lemma {:induction false} NonEmptyKeeps(pieces: seq<string>)
    requires forall i :: 0 <= i < |pieces| ==> '\n' !in pieces[i]
    ensures AllSafe(NonEmpty(pieces))
  {
    if pieces != [] {
      NonEmptyKeeps(pieces[1..]);
    }
  }

  /** Whatever the frame, the browser's lines are wire-safe. */
  lemma LinesAreSafe(frame: string)
    ensures AllSafe(Lines(frame))
  {
    PiecesHaveNoNewline(frame);
    NonEmptyKeeps(Split(frame));
  }

  lemma {:induction false} SafeFrame(ms: seq<string>)
    requires AllSafe(ms)
    ensures Lines(Join(ms)) == ms
  {
    if ms != [] {
      var front, last := ms[..|ms| - 1], ms[|ms| - 1];
      assert WireSafe(last) && ms == front + [last];
      SplitOneLine(last);
      assert NonEmpty([last]) == [last] + NonEmpty([]);
      assert Lines(last) == [last];
      if |ms| > 1 {
        SafeFrame(front);
        SplitAtNewline(Join(front), last);
        NonEmptyOfBoth(Split(Join(front)), Split(last));
      }
    }
  }

  // ---- any grouping into frames ----

  function Flatten<T>(groups: seq<seq<T>>): seq<T> {
    if groups == [] then [] else groups[0] + Flatten(groups[1..])
  }

  /** All the browser reads from the frames of these groups. */
  function Received(groups: seq<seq<string>>): seq<string> {
    if groups == [] then [] else Lines(Join(groups[0])) + Received(groups[1..])
  }

  lemma {:induction false} ReceivedIsSafe(groups: seq<seq<string>>)
    ensures AllSafe(Received(groups))
  {
    if groups != [] {
      LinesAreSafe(Join(groups[0]));
      ReceivedIsSafe(groups[1..]);
    }
  }

  lemma {:induction false} SafeGroups(groups: seq<seq<string>>)
    requires AllSafe(Flatten(groups))
    ensures Received(groups) == Flatten(groups)
  {
    if groups != [] {
      var first, rest := groups[0], Flatten(groups[1..]);
      assert forall i :: 0 <= i < |first| ==> Flatten(groups)[i] == first[i];
      assert forall i :: 0 <= i < |rest| ==> Flatten(groups)[|first| + i] == rest[i];
      SafeFrame(first);
      SafeGroups(groups[1..]);
    }
  }

  /** However the pump groups messages into frames, the browser reads exactly those messages in order if and only if
      each is non-empty and free of raw newlines. */
  lemma FramingRoundTrip(groups: seq<seq<string>>)
    ensures Received(groups) == Flatten(groups) <==> AllSafe(Flatten(groups))
  {
    ReceivedIsSafe(groups);
    if AllSafe(Flatten(groups)) {
      SafeGroups(groups);
    }
  }

  // ---- serialised messages are wire-safe ----

  /** The text of a number: non-empty, and made of the characters section 6 of RFC 8259 allows in one. */
  type Numeral = s: string | s != "" && forall i :: 0 <= i < |s| ==> s[i] in "0123456789+-.eE" witness "0"

  datatype Json =
    | Null
    | Text(text: string)
    | Number(number: Numeral)
    | Flag(flag: bool)
    | List(items: seq<Json>)
    | Object(fields: seq<(string, Json)>)

  const HEX := "0123456789abcdef"

  function Unicode(c: char): (r: string)
    requires c as int < 0x10000
    ensures '\n' !in r
  {
    var n := c as int;
    "\\u" + [HEX[n / 4096 % 16], HEX[n / 256 % 16], HEX[n / 16 % 16], HEX[n % 16]]
  }

  /** One character of a JSON string (section 7 of RFC 8259), with the HTML-safe escapes Go adds. */
  function Escape(c: char): (r: string)
    ensures r != "" && '\n' !in r
  {
    if c == '\"' then "\\\"" else if c == '\\' then "\\\\"
    else if c == '\n' then "\\n" else if c == '\r' then "\\r" else if c == '\t' then "\\t"
    else if c as int == 8 then "\\b" else if c as int == 12 then "\\f"
    else if c as int < 0x20 || c == '<' || c == '>' || c == '&' || c as int == 0x2028 || c as int == 0x2029
        then Unicode(c)
    else [c]
  }

  function Quote(s: string): string {
    "\"" + Escaped(s) + "\""
  }

  function Escaped(s: string): string {
    if s == "" then "" else Escape(s[0]) + Escaped(s[1..])
  }

  function Comma(n: nat): (r: string)
    ensures '\n' !in r
  {
    if n == 1 then "" else ","
  }

  /** Compact JSON text: no space between tokens. */
  function Render(j: Json): string
    decreases j
  {
    match j
    case Text(s) => Quote(s)
    case Null => "null"
    case Number(n) => n
    case Flag(b) => if b then "true" else "false"
    case List(items) => "[" + RenderItems(j, |items|) + "]"
    case Object(fields) => "{" + RenderFields(j, |fields|) + "}"
  }

  function RenderItems(j: Json, n: nat): string
    requires j.List? && n <= |j.items|
    decreases j, n
  {
    if n == 0 then "" else RenderItems(j, n - 1) + Comma(n) + Render(j.items[n - 1])
  }

  function RenderFields(j: Json, n: nat): string
    requires j.Object? && n <= |j.fields|
    decreases j, n
  {
    if n == 0 then ""
    else RenderFields(j, n - 1) + Comma(n) + RenderField(j, n - 1)
  }

  function RenderField(j: Json, k: nat): string
    requires j.Object? && k < |j.fields|
    decreases j, k
  {
    Quote(j.fields[k].0) + ":" + Render(j.fields[k].1)
  }

  lemma {:induction false} EscapedIsOneLine(s: string)
    ensures '\n' !in Escaped(s)
  {
    if s != "" {
      EscapedIsOneLine(s[1..]);
    }
  }

  lemma Bracketed(before: string, s: string, after: string)
    requires before != "" && '\n' !in before && '\n' !in s && '\n' !in after
    ensures WireSafe(before + s + after)
  {
  }

  lemma {:induction false} ItemsAreOneLine(j: Json, n: nat)
    requires j.List? && n <= |j.items|
    ensures '\n' !in RenderItems(j, n)
    decreases j, n
  {
    if n > 0 {
      ItemsAreOneLine(j, n - 1);
      RenderedIsWireSafe(j.items[n - 1]);
    }
  }

  lemma {:induction false} FieldsAreOneLine(j: Json, n: nat)
    requires j.Object? && n <= |j.fields|
    ensures '\n' !in RenderFields(j, n)
    decreases j, n
  {
    if n > 0 {
      FieldsAreOneLine(j, n - 1);
      FieldIsOneLine(j, n - 1);
    }
  }

  lemma {:induction false} FieldIsOneLine(j: Json, k: nat)
    requires j.Object? && k < |j.fields|
    ensures '\n' !in RenderField(j, k)
    decreases j, k
  {
    EscapedIsOneLine(j.fields[k].0);
    RenderedIsWireSafe(j.fields[k].1);
  }

  /** A serialised message is never empty and holds no raw newline, whatever its strings contain. */
  lemma {:induction false} RenderedIsWireSafe(j: Json)
    ensures WireSafe(Render(j))
    decreases j
  {
    match j
    case Null =>
    case Text(s) =>
      EscapedIsOneLine(s);
      Bracketed("\"", Escaped(s), "\"");
    case Number(n) =>
    case Flag(_) =>
    case List(items) =>
      ItemsAreOneLine(j, |items|);
      Bracketed("[", RenderItems(j, |items|), "]");
    case Object(fields) =>
      FieldsAreOneLine(j, |fields|);
      Bracketed("{", RenderFields(j, |fields|), "}");
  }

  function RenderAll(ms: seq<Json>): (r: seq<string>)
    ensures |r| == |ms|
  {
    seq(|ms|, i requires 0 <= i < |ms| => Render(ms[i]))
  }

  function RenderGroups(groups: seq<seq<Json>>): (r: seq<seq<string>>)
    ensures |r| == |groups|
  {
    seq(|groups|, i requires 0 <= i < |groups| => RenderAll(groups[i]))
  }

  lemma {:induction false} FlattenRendered(groups: seq<seq<Json>>)
    ensures Flatten(RenderGroups(groups)) == RenderAll(Flatten(groups))
  {
    if groups != [] {
      FlattenRendered(groups[1..]);
      assert RenderGroups(groups)[1..] == RenderGroups(groups[1..]);
      assert RenderAll(groups[0] + Flatten(groups[1..])) == RenderAll(groups[0]) + RenderAll(Flatten(groups[1..]));
    }
  }

  /** However the write pump groups queued messages into frames, the browser reads back the serialised form of every
      one, in order. */
  lemma MessagesSurviveFraming(groups: seq<seq<Json>>)
    ensures Received(RenderGroups(groups)) == RenderAll(Flatten(groups))
  {
    FlattenRendered(groups);
    var ms := Flatten(groups);
    forall i | 0 <= i < |ms| ensures WireSafe(RenderAll(ms)[i]) {
      RenderedIsWireSafe(ms[i]);
    }
    FramingRoundTrip(RenderGroups(groups));
  }
}
