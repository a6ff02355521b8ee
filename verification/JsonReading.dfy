/** Reading JSON text (RFC 8259) back: whatever a message holds, the browser's parser gets it out of the text the server
    made of it. */
module JsonReading {
  import opened Wrappers
  import opened Framing

  // ---- strings ----

  predicate IsHex(c: char) {
    '0' <= c <= '9' || 'a' <= c <= 'f' || 'A' <= c <= 'F'
  }

  function HexValue(c: char): (n: nat)
    requires IsHex(c)
    ensures n < 16
  {
    if c <= '9' then c as int - '0' as int
    else if c <= 'F' then c as int - 'A' as int + 10 else c as int - 'a' as int + 10
  }

  /** The character a `\u` escape stands for; half a surrogate pair is no character. */
  function FromHex(s: string): Option<char>
    requires |s| == 4
  {
    if !(IsHex(s[0]) && IsHex(s[1]) && IsHex(s[2]) && IsHex(s[3])) then None
    else
      var n := 4096 * HexValue(s[0]) + 256 * HexValue(s[1]) + 16 * HexValue(s[2]) + HexValue(s[3]);
      if 0xD800 <= n < 0xE000 then None else Some(n as char)
  }

  /** The character after a backslash, other than `u`. */
  function FromShort(c: char): Option<char> {
    match c
    case '\"' => Some('\"')
    case '\\' => Some('\\')
    case '/' => Some('/')
    case 'n' => Some('\n')
    case 'r' => Some('\r')
    case 't' => Some('\t')
    case 'b' => Some(8 as char)
    case 'f' => Some(12 as char)
    case _ => None
  }

  /** One character of a string, escaped or not, and the text behind it. */
  function ReadChar(s: string): (r: Option<(char, string)>)
    ensures r.Some? ==> |r.value.1| < |s|
  {
    if s == "" then None
    else if s[0] != '\\' then (if s[0] as int < 0x20 then None else Some((s[0], s[1..])))
    else if |s| >= 2 && s[1] != 'u' then
      match FromShort(s[1]) {
        case Some(c) => Some((c, s[2..]))
        case None => None
      }
    else if |s| >= 6 then
      match FromHex(s[2..6]) {
        case Some(c) => Some((c, s[6..]))
        case None => None
      }
    else None
  }

  /** The string up to its closing quote, and the text behind that. */
  function ReadString(s: string): (r: Option<(string, string)>)
    ensures r.Some? ==> |r.value.1| < |s|
    decreases |s|
  {
    if s == "" then None
    else if s[0] == '\"' then Some(("", s[1..]))
    else
      match ReadChar(s)
      case None => None
      case Some((c, behind)) =>
        match ReadString(behind)
        case None => None
        case Some((more, rest)) => Some(([c] + more, rest))
  }

  // ---- values ----

  predicate InNumber(c: char) {
    c in "0123456789+-.eE"
  }

  function NumberLength(s: string): (n: nat)
    ensures n <= |s| && forall i :: 0 <= i < n ==> InNumber(s[i])
  {
    if s == "" || !InNumber(s[0]) then 0 else 1 + NumberLength(s[1..])
  }

  function ReadNumber(s: string): (r: Option<(Json, string)>)
    ensures r.Some? ==> |r.value.1| < |s|
  {
    var n := NumberLength(s);
    if n == 0 then None else Some((Number(s[..n]), s[n..]))
  }

  function ReadWord(s: string, word: string, j: Json): (r: Option<(Json, string)>)
    requires word != ""
    ensures r.Some? ==> |r.value.1| < |s|
  {
    if word <= s then Some((j, s[|word|..])) else None
  }

  /** `JSON.parse` on text without white space: a value, and the text behind it. */
  function Read(s: string): (r: Option<(Json, string)>)
    ensures r.Some? ==> |r.value.1| < |s|
    decreases |s|, 0
  {
    if s == "" then None
    else
      match s[0]
      case 'n' => ReadWord(s, "null", Null)
      case 't' => ReadWord(s, "true", Flag(true))
      case 'f' => ReadWord(s, "false", Flag(false))
      case '\"' =>
        (match ReadString(s[1..])
         case None => None
         case Some((text, rest)) => Some((Text(text), rest)))
      case '[' =>
        if |s| >= 2 && s[1] == ']' then Some((List([]), s[2..]))
        else (match ReadItems(s[1..])
              case None => None
              case Some((items, rest)) => Some((List(items), rest)))
      case '{' =>
        if |s| >= 2 && s[1] == '}' then Some((Object([]), s[2..]))
        else (match ReadFields(s[1..])
              case None => None
              case Some((fields, rest)) => Some((Object(fields), rest)))
      case _ => ReadNumber(s)
  }

  function ReadItems(s: string): (r: Option<(seq<Json>, string)>)
    ensures r.Some? ==> |r.value.1| < |s|
    decreases |s|, 1
  {
    match Read(s)
    case None => None
    case Some((item, behind)) =>
      if behind == "" then None
      else if behind[0] == ']' then Some(([item], behind[1..]))
      else if behind[0] != ',' then None
      else
        match ReadItems(behind[1..])
        case None => None
        case Some((items, rest)) => Some(([item] + items, rest))
  }

  function ReadFields(s: string): (r: Option<(seq<(string, Json)>, string)>)
    ensures r.Some? ==> |r.value.1| < |s|
    decreases |s|, 1
  {
    if s == "" || s[0] != '\"' then None
    else
      match ReadString(s[1..])
      case None => None
      case Some((name, colon)) =>
        if colon == "" || colon[0] != ':' then None
        else
          match Read(colon[1..])
          case None => None
          case Some((value, behind)) =>
            if behind == "" then None
            else if behind[0] == '}' then Some(([(name, value)], behind[1..]))
            else if behind[0] != ',' then None
            else
              match ReadFields(behind[1..])
              case None => None
              case Some((fields, rest)) => Some(([(name, value)] + fields, rest))
  }

  // ---- reading what was written ----

  lemma DigitsAddUp(n: nat)
    requires n < 0x10000
    ensures n == 4096 * (n / 4096 % 16) + 256 * (n / 256 % 16) + 16 * (n / 16 % 16) + n % 16
  {
    assert n / 16 == 16 * (n / 16 / 16) + n / 16 % 16 && n / 16 / 16 == n / 256;
    assert n / 256 == 16 * (n / 256 / 16) + n / 256 % 16 && n / 256 / 16 == n / 4096;
    assert n / 4096 % 16 == n / 4096;
  }

  lemma FourReads(a: nat, b: nat, c: nat, d: nat)
    requires a < 16 && b < 16 && c < 16 && d < 16
    ensures var n := 4096 * a + 256 * b + 16 * c + d;
            FromHex([HEX[a], HEX[b], HEX[c], HEX[d]]) == if 0xD800 <= n < 0xE000 then None else Some(n as char)
  {
    HexReads(a);
    HexReads(b);
    HexReads(c);
    HexReads(d);
  }

  lemma UnicodeReads(c: char, rest: string)
    requires c as int < 0xD800 || 0xE000 <= c as int < 0x10000
    ensures ReadChar(Unicode(c) + rest) == Some((c, rest))
  {
    var n, s := c as int, Unicode(c) + rest;
    assert s[2..6] == [HEX[n / 4096 % 16], HEX[n / 256 % 16], HEX[n / 16 % 16], HEX[n % 16]];
    DigitsAddUp(n);
    FourReads(n / 4096 % 16, n / 256 % 16, n / 16 % 16, n % 16);
    assert s[6..] == rest;
  }

  lemma HexReads(d: nat)
    requires d < 16
    ensures IsHex(HEX[d]) && HexValue(HEX[d]) == d
  {
  }

  lemma EscapeReads(c: char, rest: string)
    ensures ReadChar(Escape(c) + rest) == Some((c, rest)) && (Escape(c) + rest)[0] != '\"'
  {
    var s := Escape(c) + rest;
    if |Escape(c)| == 6 {
      UnicodeReads(c, rest);
    } else if |Escape(c)| == 2 {
      assert s[2..] == rest;
    } else {
      assert s[1..] == rest;
    }
  }

  /** Unescaping undoes escaping. */
  lemma {:induction false} StringReads(text: string, rest: string)
    ensures ReadString(Escaped(text) + "\"" + rest) == Some((text, rest))
  {
    if text == "" {
      assert (Escaped(text) + "\"" + rest)[1..] == rest;
    } else {
      var behind := Escaped(text[1..]) + "\"" + rest;
      assert Escaped(text) + "\"" + rest == Escape(text[0]) + behind;
      EscapeReads(text[0], behind);
      StringReads(text[1..], rest);
      assert [text[0]] + text[1..] == text;
    }
  }

  lemma {:induction false} NumberReads(n: string, rest: string)
    requires forall i :: 0 <= i < |n| ==> InNumber(n[i])
    requires rest == "" || !InNumber(rest[0])
    ensures NumberLength(n + rest) == |n|
  {
    if n != "" {
      assert (n + rest)[1..] == n[1..] + rest;
      NumberReads(n[1..], rest);
    } else {
      assert n + rest == rest;
    }
  }

  lemma Regroup(a: string, b: string, c: string)
    ensures (a + b) + c == a + (b + c)
  {
  }

  lemma Behind(a: string, b: string)
    ensures (a + b)[|a|..] == b
  {
  }

  /** The items from number `k` on, with the bracket behind them. */
  function ItemsFrom(j: Json, k: nat, rest: string): string
    requires j.List? && k < |j.items|
    decreases |j.items| - k
  {
    Render(j.items[k]) + BehindItem(j, k, rest)
  }

  function BehindItem(j: Json, k: nat, rest: string): (r: string)
    requires j.List? && k < |j.items|
    ensures r != "" && EndsValue(r)
    decreases |j.items| - k, 1
  {
    if k + 1 == |j.items| then "]" + rest else "," + ItemsFrom(j, k + 1, rest)
  }

  lemma {:induction false} ItemsAreFrom(j: Json, k: nat, rest: string)
    requires j.List? && k < |j.items|
    ensures RenderItems(j, |j.items|) + ("]" + rest) == (RenderItems(j, k) + Comma(k + 1)) + ItemsFrom(j, k, rest)
    decreases |j.items| - k
  {
    if k + 1 < |j.items| {
      ItemsAreFrom(j, k + 1, rest);
      Regroup(RenderItems(j, k + 1), ",", ItemsFrom(j, k + 1, rest));
    }
    assert RenderItems(j, |j.items|) + ("]" + rest) == RenderItems(j, k + 1) + BehindItem(j, k, rest);
    Regroup(RenderItems(j, k) + Comma(k + 1), Render(j.items[k]), BehindItem(j, k, rest));
  }

  /** The fields from number `k` on, with the brace behind them. */
  function FieldsFrom(j: Json, k: nat, rest: string): string
    requires j.Object? && k < |j.fields|
    decreases |j.fields| - k
  {
    RenderField(j, k) + BehindField(j, k, rest)
  }

  function BehindField(j: Json, k: nat, rest: string): (r: string)
    requires j.Object? && k < |j.fields|
    ensures r != "" && EndsValue(r)
    decreases |j.fields| - k, 1
  {
    if k + 1 == |j.fields| then "}" + rest else "," + FieldsFrom(j, k + 1, rest)
  }

  lemma {:induction false} FieldsAreFrom(j: Json, k: nat, rest: string)
    requires j.Object? && k < |j.fields|
    ensures RenderFields(j, |j.fields|) + ("}" + rest) == (RenderFields(j, k) + Comma(k + 1)) + FieldsFrom(j, k, rest)
    decreases |j.fields| - k
  {
    if k + 1 < |j.fields| {
      FieldsAreFrom(j, k + 1, rest);
      Regroup(RenderFields(j, k + 1), ",", FieldsFrom(j, k + 1, rest));
    }
    assert RenderFields(j, |j.fields|) + ("}" + rest) == RenderFields(j, k + 1) + BehindField(j, k, rest);
    Regroup(RenderFields(j, k) + Comma(k + 1), RenderField(j, k), BehindField(j, k, rest));
  }

  /** Not the continuation of a number. */
  predicate EndsValue(rest: string) {
    rest == "" || !InNumber(rest[0])
  }

  lemma {:induction false} ItemsRead(j: Json, k: nat, rest: string)
    requires j.List? && k < |j.items|
    ensures ReadItems(ItemsFrom(j, k, rest)) == Some((j.items[k..], rest))
    decreases j, 1, |j.items| - k
  {
    var item, behind := j.items[k], BehindItem(j, k, rest);
    ValueReads(item, behind);
    if k + 1 == |j.items| {
      Behind("]", rest);
      assert j.items[k..] == [item];
    } else {
      ItemsRead(j, k + 1, rest);
      Behind(",", ItemsFrom(j, k + 1, rest));
      assert j.items[k..] == [item] + j.items[k + 1..];
    }
  }

  lemma FieldOpens(name: string, value: string, behind: string)
    ensures var s := Quote(name) + ":" + value + behind;
            s != "" && s[0] == '\"' && ReadString(s[1..]) == Some((name, ":" + (value + behind)))
  {
    var s, colon := Quote(name) + ":" + value + behind, ":" + (value + behind);
    assert s[1..] == Escaped(name) + "\"" + colon;
    StringReads(name, colon);
  }

  lemma {:induction false} FieldsRead(j: Json, k: nat, rest: string)
    requires j.Object? && k < |j.fields|
    ensures ReadFields(FieldsFrom(j, k, rest)) == Some((j.fields[k..], rest))
    decreases j, 1, |j.fields| - k
  {
    var (name, value) := j.fields[k];
    var behind := BehindField(j, k, rest);
    FieldOpens(name, Render(value), behind);
    Behind(":", Render(value) + behind);
    ValueReads(value, behind);
    if k + 1 == |j.fields| {
      Behind("}", rest);
      assert j.fields[k..] == [(name, value)];
    } else {
      FieldsRead(j, k + 1, rest);
      Behind(",", FieldsFrom(j, k + 1, rest));
      assert j.fields[k..] == [(name, value)] + j.fields[k + 1..];
    }
  }

  lemma ListOpens(inner: string, items: seq<Json>, rest: string)
    requires inner != "" && inner[0] != ']' && ReadItems(inner) == Some((items, rest))
    ensures Read("[" + inner) == Some((List(items), rest))
  {
    Behind("[", inner);
  }

  lemma ObjectOpens(inner: string, fields: seq<(string, Json)>, rest: string)
    requires inner != "" && inner[0] != '}' && ReadFields(inner) == Some((fields, rest))
    ensures Read("{" + inner) == Some((Object(fields), rest))
  {
    Behind("{", inner);
  }

  lemma Empties(rest: string)
    ensures Read("[]" + rest) == Some((List([]), rest)) && Read("{}" + rest) == Some((Object([]), rest))
  {
    Behind("[]", rest);
    Behind("{}", rest);
  }

  lemma {:induction false} ListReads(j: Json, rest: string)
    requires j.List?
    ensures Read(Render(j) + rest) == Some((j, rest))
    decreases j, 2
  {
    if j.items == [] {
      Empties(rest);
    } else {
      var inner := ItemsFrom(j, 0, rest);
      ItemsAreFrom(j, 0, rest);
      assert (RenderItems(j, 0) + Comma(1)) + inner == inner;
      Regroup("[" + RenderItems(j, |j.items|), "]", rest);
      Regroup("[", RenderItems(j, |j.items|), "]" + rest);
      ItemsRead(j, 0, rest);
      StartsValue(j.items[0]);
      ListOpens(inner, j.items[0..], rest);
      assert j.items[0..] == j.items;
    }
  }

  lemma {:induction false} ObjectReads(j: Json, rest: string)
    requires j.Object?
    ensures Read(Render(j) + rest) == Some((j, rest))
    decreases j, 2
  {
    if j.fields == [] {
      Empties(rest);
    } else {
      var inner := FieldsFrom(j, 0, rest);
      FieldsAreFrom(j, 0, rest);
      assert (RenderFields(j, 0) + Comma(1)) + inner == inner;
      Regroup("{" + RenderFields(j, |j.fields|), "}", rest);
      Regroup("{", RenderFields(j, |j.fields|), "}" + rest);
      FieldsRead(j, 0, rest);
      ObjectOpens(inner, j.fields[0..], rest);
      assert j.fields[0..] == j.fields;
    }
  }

  /** No value begins with a closing bracket. */
  lemma StartsValue(j: Json)
    ensures Render(j) != "" && Render(j)[0] != ']'
  {
    if j.Number? {
      assert j.number[0] in "0123456789+-.eE";
    }
  }

  lemma WordReads(word: string, j: Json, rest: string)
    requires word != ""
    ensures ReadWord(word + rest, word, j) == Some((j, rest))
  {
    Behind(word, rest);
  }

  lemma TextReads(text: string, rest: string)
    ensures Read(Quote(text) + rest) == Some((Text(text), rest))
  {
    var quoted := Escaped(text) + "\"" + rest;
    Regroup("\"" + Escaped(text), "\"", rest);
    Regroup("\"", Escaped(text), "\"" + rest);
    Regroup(Escaped(text), "\"", rest);
    StringReads(text, rest);
    TextOpens(quoted, text, rest);
  }

  lemma TextOpens(quoted: string, text: string, rest: string)
    requires ReadString(quoted) == Some((text, rest))
    ensures Read("\"" + quoted) == Some((Text(text), rest))
  {
    Behind("\"", quoted);
  }

  lemma NumberIsRead(n: Numeral, rest: string)
    requires EndsValue(rest)
    ensures Read(n + rest) == Some((Number(n), rest))
  {
    assert forall i :: 0 <= i < |n| ==> InNumber(n[i]);
    NumberReads(n, rest);
    NumberOpens(n + rest, n, rest);
  }

  lemma NumberStarts(c: char)
    requires InNumber(c)
    ensures c != 'n' && c != 't' && c != 'f' && c != '\"' && c != '[' && c != '{'
  {
  }

  lemma NumberOpens(s: string, n: Numeral, rest: string)
    requires s == n + rest && InNumber(n[0]) && NumberLength(s) == |n|
    ensures Read(s) == Some((Number(n), rest))
  {
    Behind(n, rest);
    assert s[..|n|] == n;
    NumberStarts(s[0]);
    assert Read(s) == ReadNumber(s);
  }

  lemma {:induction false} ValueReads(j: Json, rest: string)
    requires EndsValue(rest)
    ensures Read(Render(j) + rest) == Some((j, rest))
    decreases j, 3
  {
    match j
    case Null => WordReads("null", Null, rest);
    case Flag(b) => WordReads(if b then "true" else "false", j, rest);
    case Text(text) => TextReads(text, rest);
    case Number(n) => NumberIsRead(n, rest);
    case List(_) => ListReads(j, rest);
    case Object(_) => ObjectReads(j, rest);
  }

  /** The parser's result for a whole line. */
  function Parse(line: string): Option<Json> {
    match Read(line)
    case Some((j, rest)) => if rest == "" then Some(j) else None
    case None => None
  }

  /** Parsing undoes rendering, for every JSON value whatever its strings contain. */
  lemma ParseRendered(j: Json)
    ensures Parse(Render(j)) == Some(j)
  {
    ValueReads(j, "");
    assert Render(j) + "" == Render(j);
  }

  /** From the hub's queue to the browser's handlers: however the write pump groups messages into frames, the browser
      parses out exactly those messages, in order. */
  lemma MessagesArriveWhole(groups: seq<seq<Json>>)
    ensures var lines := Received(RenderGroups(groups));
            && |lines| == |Flatten(groups)|
            && forall i :: 0 <= i < |lines| ==> Parse(lines[i]) == Some(Flatten(groups)[i])
  {
    MessagesSurviveFraming(groups);
    forall i | 0 <= i < |Flatten(groups)|
      ensures Parse(RenderAll(Flatten(groups))[i]) == Some(Flatten(groups)[i])
    {
      ParseRendered(Flatten(groups)[i]);
    }
  }
}
