/** Metadata inside widget labels: 'vol [unit: dB]' is the label 'vol' with the metadata unit = dB. */
module Metadata {

  predicate Blank(c: char) {
    c == ' ' || c == '\t'
  }

  predicate AllBlank(s: string) {
    forall i :: 0 <= i < |s| ==> Blank(s[i])
  }

  /** Index of the first character that is not blank, or the length. */
  function FirstText(s: string): (i: nat)
    ensures i <= |s| && AllBlank(s[..i]) && (i < |s| ==> !Blank(s[i]))
  {
    if s == "" || !Blank(s[0]) then 0
    else
      var i := FirstText(s[1..]);
      assert s[..i + 1] == [s[0]] + s[1..][..i];
      i + 1
  }

  /** One past the index of the last character that is not blank, or 0. */
  function EndOfText(s: string): (j: nat)
    ensures j <= |s| && AllBlank(s[j..]) && (j > 0 ==> !Blank(s[j - 1]))
  {
    if s == "" || !Blank(s[|s| - 1]) then |s|
    else
      var j := EndOfText(s[..|s| - 1]);
      assert s[j..] == s[..|s| - 1][j..] + [s[|s| - 1]];
      j
  }

  /** rmWhiteSpaces */
  function Trim(s: string): (r: string)
    ensures r != "" ==> r[0] != ' ' && r[0] != '\t' && r[|r| - 1] != ' ' && r[|r| - 1] != '\t'
  {
    var i, j := FirstText(s), EndOfText(s);
    if i < |s| && j > 0 then
      TextIsOrdered(s);
      s[i..j]
    else ""
  }

  lemma TextIsOrdered(s: string)
    requires FirstText(s) < |s|
    ensures FirstText(s) < EndOfText(s)
  {
    var i, j := FirstText(s), EndOfText(s);
  }

  lemma Cut(s: string, i: nat, j: nat)
    requires i <= j <= |s|
    ensures s == s[..i] + s[i..j] + s[j..]
  {
  }

  /** Only blanks are cut off, in front and behind. */
  lemma TrimCutsBlanks(s: string) returns (before: string, after: string)
    ensures s == before + Trim(s) + after
    ensures forall i :: 0 <= i < |before| ==> before[i] == ' ' || before[i] == '\t'
    ensures forall i :: 0 <= i < |after| ==> after[i] == ' ' || after[i] == '\t'
  {
    var i, j := FirstText(s), EndOfText(s);
    if i < |s| {
      TextIsOrdered(s);
      before, after := s[..i], s[j..];
      Cut(s, i, j);
    } else {
      before, after := s, "";
      assert s[..i] == s;
    }
  }

  lemma TrimIdempotent(s: string)
    ensures Trim(Trim(s)) == Trim(s)
  {
    var r := Trim(s);
    if r != "" {
      assert FirstText(r) == 0;
      assert EndOfText(r) == |r|;
    }
  }

  // ---------------------------------------------------------------------------------------
  // The state machine
  // ---------------------------------------------------------------------------------------

  datatype Mode = InLabel | EscLabel | EscKey | EscValue | InKey | InValue

  datatype Parser = Parser(mode: Mode, deep: int, key: string, value: string, caption: string, meta: map<string, string>)

  const START := Parser(InLabel, 0, "", "", "", map[])

  /** The parser's assertions: no open bracket in the label, at least one inside the metadata. */
  predicate DepthOk(p: Parser) {
    if p.mode.InLabel? || p.mode.EscLabel? then p.deep == 0 else p.deep > 0
  }

  function Feed(p: Parser, c: char): (p': Parser)
    requires DepthOk(p)
    ensures DepthOk(p')
  {
    match p.mode
    case InLabel =>
      if c == '\\' then p.(mode := EscLabel)
      else if c == '[' then p.(mode := InKey, deep := p.deep + 1)
      else p.(caption := p.caption + [c])
    case EscLabel => p.(caption := p.caption + [c], mode := InLabel)
    case EscKey => p.(key := p.key + [c], mode := InKey)
    case EscValue => p.(value := p.value + [c], mode := InValue)
    case InKey =>
      if c == '\\' then p.(mode := EscKey)
      else if c == '[' then p.(deep := p.deep + 1, key := p.key + [c])
      else if c == ':' && p.deep == 1 then p.(mode := InValue)
      else if c == ']' then
        if p.deep - 1 < 1 then
          p.(deep := p.deep - 1, meta := p.meta[Trim(p.key) := ""], mode := InLabel, key := "", value := "")
        else p.(deep := p.deep - 1, key := p.key + [c])
      else p.(key := p.key + [c])
    case InValue =>
      if c == '\\' then p.(mode := EscValue)
      else if c == '[' then p.(deep := p.deep + 1, value := p.value + [c])
      else if c == ']' then
        if p.deep - 1 < 1 then
          p.(deep := p.deep - 1, meta := p.meta[Trim(p.key) := Trim(p.value)], mode := InLabel, key := "", value := "")
        else p.(deep := p.deep - 1, value := p.value + [c])
      else p.(value := p.value + [c])
  }

  function FeedAll(p: Parser, s: string): (p': Parser)
    requires DepthOk(p)
    ensures DepthOk(p')
    decreases |s|
  {
    if s == "" then p else FeedAll(Feed(p, s[0]), s[1..])
  }

  function Extract(s: string): (string, map<string, string>) {
    var p := FeedAll(START, s);
    (Trim(p.caption), p.meta)
  }

  lemma {:induction false} FeedAllConcat(p: Parser, s: string, t: string)
    requires DepthOk(p)
    ensures FeedAll(p, s + t) == FeedAll(FeedAll(p, s), t)
    decreases |s|
  {
    if s == "" {
      assert s + t == t;
    } else {
      assert (s + t)[0] == s[0] && (s + t)[1..] == s[1..] + t;
      FeedAllConcat(Feed(p, s[0]), s[1..], t);
    }
  }

  /** The loop of extractMetadata.  Its assertions hold on every input. */
  method ExtractMetadata(fulllabel: string) returns (caption: string, metadata: map<string, string>)
    ensures (caption, metadata) == Extract(fulllabel)
  {
    caption, metadata := "", map[];
    var mode, deep, key, value := InLabel, 0, "", "";
    for i := 0 to |fulllabel|
      invariant DepthOk(Parser(mode, deep, key, value, caption, metadata))
      invariant FeedAll(Parser(mode, deep, key, value, caption, metadata), fulllabel[i..]) == FeedAll(START, fulllabel)
    {
      var c := fulllabel[i];
      assert fulllabel[i..][0] == c && fulllabel[i..][1..] == fulllabel[i + 1..];
      match mode {
        case InLabel =>
          assert deep == 0;
          if c == '\\' {
            mode := EscLabel;
          } else if c == '[' {
            mode := InKey;
            deep := deep + 1;
          } else {
            caption := caption + [c];
          }
        case EscLabel =>
          caption := caption + [c];
          mode := InLabel;
        case EscKey =>
          key := key + [c];
          mode := InKey;
        case EscValue =>
          value := value + [c];
          mode := InValue;
        case InKey =>
          assert deep > 0;
          if c == '\\' {
            mode := EscKey;
          } else if c == '[' {
            deep := deep + 1;
            key := key + [c];
          } else if c == ':' && deep == 1 {
            mode := InValue;
          } else if c == ']' {
            deep := deep - 1;
            if deep < 1 {
              metadata := metadata[Trim(key) := ""];
              mode, key, value := InLabel, "", "";
            } else {
              key := key + [c];
            }
          } else {
            key := key + [c];
          }
        case InValue =>
          assert deep > 0;
          if c == '\\' {
            mode := EscValue;
          } else if c == '[' {
            deep := deep + 1;
            value := value + [c];
          } else if c == ']' {
            deep := deep - 1;
            if deep < 1 {
              metadata := metadata[Trim(key) := Trim(value)];
              mode, key, value := InLabel, "", "";
            } else {
              value := value + [c];
            }
          } else {
            value := value + [c];
          }
      }
    }
    caption := Trim(caption);
  }

  // ---------------------------------------------------------------------------------------
  // Printing
  // ---------------------------------------------------------------------------------------

  /** What a label can be made of. */
  datatype Item =
    | Text(text: string)                  // a piece of the label
    | Pair(key: string, value: string)    // [key: value]
    | Flag(key: string)                   // [key]
    | Raw(key: string, value: string)     // [key: value] with brackets in the value left as they are
    | Bare(key: string, value: string)    // [key: value] with brackets and inner colons of both left as they are

  /** `s` with a backslash before every character of `special` and before every backslash. */
  function Escape(s: string, special: set<char>): string {
    if s == "" then ""
    else (if s[0] in special || s[0] == '\\' then ['\\', s[0]] else [s[0]]) + Escape(s[1..], special)
  }

  const KEY_SPECIAL := {'[', ']', ':'}
  const VALUE_SPECIAL := {'[', ']'}

  /** Bracket depth inside `s` never falls below the start, ends there, and nothing is escaped. */
  predicate BalancedFrom(s: string, depth: nat) {
    if s == "" then depth == 0
    else if s[0] == '\\' then false
    else if s[0] == '[' then BalancedFrom(s[1..], depth + 1)
    else if s[0] == ']' then depth > 0 && BalancedFrom(s[1..], depth - 1)
    else BalancedFrom(s[1..], depth)
  }

  /** The same, and colons stand only inside brackets. */
  predicate BalancedKey(s: string, depth: nat) {
    if s == "" then depth == 0
    else if s[0] == '\\' then false
    else if s[0] == '[' then BalancedKey(s[1..], depth + 1)
    else if s[0] == ']' then depth > 0 && BalancedKey(s[1..], depth - 1)
    else (s[0] == ':' ==> depth > 0) && BalancedKey(s[1..], depth)
  }

  predicate ItemOk(it: Item) {
    && (it.Raw? || it.Bare? ==> BalancedFrom(it.value, 0))
    && (it.Bare? ==> BalancedKey(it.key, 0))
  }

  function PrintItem(it: Item): string {
    match it
    case Text(t) => Escape(t, {'['})
    case Pair(k, v) => "[" + Escape(k, KEY_SPECIAL) + ":" + Escape(v, VALUE_SPECIAL) + "]"
    case Flag(k) => "[" + Escape(k, KEY_SPECIAL) + "]"
    case Raw(k, v) => "[" + Escape(k, KEY_SPECIAL) + ":" + v + "]"
    case Bare(k, v) => "[" + k + ":" + v + "]"
  }

  function Print(items: seq<Item>): string {
    if items == [] then "" else PrintItem(items[0]) + Print(items[1..])
  }

  /** The text of the label. */
  function LabelOf(items: seq<Item>): string {
    if items == [] then "" else TextOf(items[0]) + LabelOf(items[1..])
  }

  /** The metadata, where later keys win. */
  function MetaOf(items: seq<Item>, meta: map<string, string>): map<string, string> {
    if items == [] then meta
    else
      MetaOf(items[1..], AddMeta(meta, items[0]))
  }

  function AddMeta(meta: map<string, string>, it: Item): map<string, string> {
    match it
    case Text(_) => meta
    case Flag(k) => meta[Trim(k) := ""]
    case Pair(k, v) => meta[Trim(k) := Trim(v)]
    case Raw(k, v) => meta[Trim(k) := Trim(v)]
    case Bare(k, v) => meta[Trim(k) := Trim(v)]
  }

  function TextOf(it: Item): string {
    if it.Text? then it.text else ""
  }

  lemma {:induction false} FeedLabel(p: Parser, t: string)
    requires DepthOk(p) && p.mode.InLabel?
    ensures FeedAll(p, Escape(t, {'['})) == p.(caption := p.caption + t)
    decreases |t|
  {
    if t == "" {
      assert p.caption + t == p.caption;
    } else {
      var e := if t[0] in {'['} || t[0] == '\\' then ['\\', t[0]] else [t[0]];
      var p1 := p.(caption := p.caption + [t[0]]);
      FeedAllConcat(p, e, Escape(t[1..], {'['}));
      FeedEscaped(p, t[0], {'['});
      FeedLabel(p1, t[1..]);
      assert p.caption + [t[0]] + t[1..] == p.caption + t;
    }
  }

  /** Feeding one character, escaped where necessary, appends it to the current text. */
  lemma FeedEscaped(p: Parser, c: char, special: set<char>)
    requires DepthOk(p)
    requires (p.mode.InLabel? && special == {'['}) || (p.mode.InKey? && special == KEY_SPECIAL)
      || (p.mode.InValue? && special == VALUE_SPECIAL)
    ensures var e := if c in special || c == '\\' then ['\\', c] else [c];
      FeedAll(p, e) ==
        if p.mode.InLabel? then p.(caption := p.caption + [c])
        else if p.mode.InKey? then p.(key := p.key + [c])
        else p.(value := p.value + [c])
  {
    if c in special || c == '\\' {
      assert ['\\', c][1..] == [c] && [c][1..] == [];
      assert FeedAll(p, ['\\', c]) == FeedAll(Feed(p, '\\'), [c]);
      assert FeedAll(Feed(p, '\\'), [c]) == Feed(Feed(p, '\\'), c);
    } else {
      assert [c][1..] == [];
      assert FeedAll(p, [c]) == Feed(p, c);
    }
  }

  lemma {:induction false} FeedKey(p: Parser, t: string)
    requires DepthOk(p) && p.mode.InKey?
    ensures FeedAll(p, Escape(t, KEY_SPECIAL)) == p.(key := p.key + t)
    decreases |t|
  {
    if t == "" {
      assert p.key + t == p.key;
    } else {
      var e := if t[0] in KEY_SPECIAL || t[0] == '\\' then ['\\', t[0]] else [t[0]];
      FeedAllConcat(p, e, Escape(t[1..], KEY_SPECIAL));
      FeedEscaped(p, t[0], KEY_SPECIAL);
      FeedKey(p.(key := p.key + [t[0]]), t[1..]);
      assert p.key + [t[0]] + t[1..] == p.key + t;
    }
  }

  lemma {:induction false} FeedValue(p: Parser, t: string)
    requires DepthOk(p) && p.mode.InValue?
    ensures FeedAll(p, Escape(t, VALUE_SPECIAL)) == p.(value := p.value + t)
    decreases |t|
  {
    if t == "" {
      assert p.value + t == p.value;
    } else {
      var e := if t[0] in VALUE_SPECIAL || t[0] == '\\' then ['\\', t[0]] else [t[0]];
      FeedAllConcat(p, e, Escape(t[1..], VALUE_SPECIAL));
      FeedEscaped(p, t[0], VALUE_SPECIAL);
      FeedValue(p.(value := p.value + [t[0]]), t[1..]);
      assert p.value + [t[0]] + t[1..] == p.value + t;
    }
  }

  /** Balanced brackets inside a value survive verbatim. */
  lemma {:induction false} FeedBalanced(p: Parser, t: string, depth: nat)
    requires p.mode.InValue? && p.deep == depth + 1 && BalancedFrom(t, depth)
    ensures FeedAll(p, t) == p.(value := p.value + t, deep := 1)
    decreases |t|
  {
    if t == "" {
      assert p.value + t == p.value;
    } else {
      var p1 := Feed(p, t[0]);
      FeedBalanced(p1, t[1..], p1.deep - 1);
      assert p.value + [t[0]] + t[1..] == p.value + t;
    }
  }

  /** Balanced brackets inside a key survive verbatim, and so do colons inside them. */
  lemma {:induction false} FeedBalancedKey(p: Parser, t: string, depth: nat)
    requires p.mode.InKey? && p.deep == depth + 1 && BalancedKey(t, depth)
    ensures FeedAll(p, t) == p.(key := p.key + t, deep := 1)
    decreases |t|
  {
    if t == "" {
      assert p.key + t == p.key;
    } else {
      var p1 := Feed(p, t[0]);
      FeedBalancedKey(p1, t[1..], p1.deep - 1);
      assert p.key + [t[0]] + t[1..] == p.key + t;
    }
  }

  /** A backslash before any character, special or not, in the label, in a key or in a value at any depth, stands for
      that character. */
  lemma FeedBackslash(p: Parser, c: char)
    requires DepthOk(p) && (p.mode.InLabel? || p.mode.InKey? || p.mode.InValue?)
    ensures FeedAll(p, ['\\', c]) ==
      if p.mode.InLabel? then p.(caption := p.caption + [c])
      else if p.mode.InKey? then p.(key := p.key + [c])
      else p.(value := p.value + [c])
  {
    assert ['\\', c][1..] == [c] && [c][1..] == [];
    assert FeedAll(p, ['\\', c]) == FeedAll(Feed(p, '\\'), [c]);
    FeedOne(Feed(p, '\\'), c);
  }

  lemma FeedOne(p: Parser, c: char)
    requires DepthOk(p)
    ensures FeedAll(p, [c]) == Feed(p, c)
  {
    assert [c][1..] == [];
  }

  /** One printed item takes the parser from label to label. */
  lemma FeedItem(p: Parser, it: Item)
    requires p.mode.InLabel? && p.deep == 0 && p.key == "" && p.value == "" && ItemOk(it)
    ensures FeedAll(p, PrintItem(it)) == p.(caption := p.caption + TextOf(it), meta := AddMeta(p.meta, it))
  {
    assert p.caption + "" == p.caption;
    match it {
      case Text(t) => FeedLabel(p, t);
      case Flag(k) => FeedFlag(p, k);
      case Pair(k, v) =>
        FeedValue(AfterKey(p, k), v);
        FeedPair(p, k, Escape(v, VALUE_SPECIAL), v);
      case Raw(k, v) =>
        FeedBalanced(AfterKey(p, k), v, 0);
        FeedPair(p, k, v, v);
      case Bare(k, v) =>
        FeedBare(p, k, v);
    }
  }

  /** The parser behind the colon. */
  function AfterKey(p: Parser, k: string): Parser {
    p.(mode := InValue, deep := 1, key := k)
  }

  lemma FeedOpen(p: Parser, k: string)
    requires p.mode.InLabel? && p.deep == 0 && p.key == "" && p.value == ""
    ensures FeedAll(p, "[" + Escape(k, KEY_SPECIAL)) == p.(mode := InKey, deep := 1, key := k)
  {
    FeedAllConcat(p, "[", Escape(k, KEY_SPECIAL));
    FeedOne(p, '[');
    FeedKey(Feed(p, '['), k);
    assert "" + k == k;
  }

  lemma FeedFlag(p: Parser, k: string)
    requires p.mode.InLabel? && p.deep == 0 && p.key == "" && p.value == ""
    ensures FeedAll(p, PrintItem(Flag(k))) == p.(meta := p.meta[Trim(k) := ""])
  {
    FeedAllConcat(p, "[" + Escape(k, KEY_SPECIAL), "]");
    FeedOpen(p, k);
    FeedOne(p.(mode := InKey, deep := 1, key := k), ']');
  }

  lemma FeedPair(p: Parser, k: string, printed: string, v: string)
    requires p.mode.InLabel? && p.deep == 0 && p.key == "" && p.value == ""
    requires FeedAll(AfterKey(p, k), printed) == AfterKey(p, k).(value := v)
    ensures FeedAll(p, "[" + Escape(k, KEY_SPECIAL) + ":" + printed + "]") == p.(meta := p.meta[Trim(k) := Trim(v)])
  {
    var open := "[" + Escape(k, KEY_SPECIAL);
    FeedAllConcat(p, open + ":" + printed, "]");
    FeedAllConcat(p, open + ":", printed);
    FeedAllConcat(p, open, ":");
    FeedOpen(p, k);
    FeedOne(p.(mode := InKey, deep := 1, key := k), ':');
    FeedOne(AfterKey(p, k).(value := v), ']');
  }

  lemma FeedBare(p: Parser, k: string, v: string)
    requires p.mode.InLabel? && p.deep == 0 && p.key == "" && p.value == ""
    requires BalancedKey(k, 0) && BalancedFrom(v, 0)
    ensures FeedAll(p, "[" + k + ":" + v + "]") == p.(meta := p.meta[Trim(k) := Trim(v)])
  {
    FeedAllConcat(p, "[" + k + ":" + v, "]");
    FeedAllConcat(p, "[" + k + ":", v);
    FeedAllConcat(p, "[" + k, ":");
    FeedAllConcat(p, "[", k);
    FeedOne(p, '[');
    FeedBalancedKey(Feed(p, '['), k, 0);
    assert "" + k == k;
    FeedOne(p.(mode := InKey, deep := 1, key := k), ':');
    FeedBalanced(AfterKey(p, k), v, 0);
    assert "" + v == v;
    FeedOne(AfterKey(p, k).(value := v), ']');
  }

  lemma {:induction false} FeedItems(p: Parser, items: seq<Item>)
    requires p.mode.InLabel? && p.deep == 0 && p.key == "" && p.value == ""
    requires forall i :: 0 <= i < |items| ==> ItemOk(items[i])
    ensures FeedAll(p, Print(items)) == p.(caption := p.caption + LabelOf(items), meta := MetaOf(items, p.meta))
    decreases |items|
  {
    if items == [] {
      assert p.caption + "" == p.caption;
    } else {
      var it, rest := items[0], items[1..];
      var p1 := p.(caption := p.caption + TextOf(it), meta := AddMeta(p.meta, it));
      assert FeedAll(p, PrintItem(it)) == p1 by { FeedItem(p, it); }
      assert FeedAll(p, Print(items)) == FeedAll(p1, Print(rest)) by { FeedAllConcat(p, PrintItem(it), Print(rest)); }
      FeedItems(p1, rest);
      Associative(p.caption, TextOf(it), LabelOf(rest));
    }
  }

  lemma Associative(a: string, b: string, c: string)
    ensures a + b + c == a + (b + c)
  {
  }

  /** Whatever is printed is parsed back: the trimmed label, and the trimmed keys with their trimmed
      values, later keys winning. */
  lemma PrintThenExtract(items: seq<Item>)
    requires forall i :: 0 <= i < |items| ==> ItemOk(items[i])
    ensures Extract(Print(items)) == (Trim(LabelOf(items)), MetaOf(items, map[]))
  {
    FeedItems(START, items);
    assert "" + LabelOf(items) == LabelOf(items);
  }

  // ---------------------------------------------------------------------------------------
  // Normal form
  // ---------------------------------------------------------------------------------------

  predicate Trimmed(meta: map<string, string>) {
    forall k :: k in meta ==> Trim(k) == k && Trim(meta[k]) == meta[k]
  }

  lemma {:induction false} ExtractTrims(p: Parser, s: string)
    requires DepthOk(p) && Trimmed(p.meta)
    ensures Trimmed(FeedAll(p, s).meta)
    decreases |s|
  {
    if s != "" {
      FeedTrims(p, s[0]);
      ExtractTrims(Feed(p, s[0]), s[1..]);
    }
  }

  lemma FeedMeta(p: Parser, c: char)
    requires DepthOk(p)
    ensures var meta := Feed(p, c).meta;
      meta == p.meta || meta == p.meta[Trim(p.key) := ""] || meta == p.meta[Trim(p.key) := Trim(p.value)]
  {
  }

  lemma FeedTrims(p: Parser, c: char)
    requires DepthOk(p) && Trimmed(p.meta)
    ensures Trimmed(Feed(p, c).meta)
  {
    FeedMeta(p, c);
    TrimIdempotent(p.key);
    TrimIdempotent(p.value);
    TrimIdempotent("");
    TrimmedUpdate(p.meta, Trim(p.key), "");
    TrimmedUpdate(p.meta, Trim(p.key), Trim(p.value));
  }

  lemma TrimmedUpdate(meta: map<string, string>, k: string, v: string)
    requires Trimmed(meta) && Trim(k) == k && Trim(v) == v
    ensures Trimmed(meta[k := v])
  {
  }

  ghost predicate HasKey(pairs: seq<Item>, k: string) {
    exists i :: 0 <= i < |pairs| && pairs[i].Pair? && pairs[i].key == k
  }

  /** A list of exactly the pairs of `meta`, in any order. */
  ghost predicate Lists(pairs: seq<Item>, meta: map<string, string>) {
    && (forall i :: 0 <= i < |pairs| ==> pairs[i].Pair? && pairs[i].key in meta && pairs[i].value == meta[pairs[i].key])
    && (forall k :: k in meta ==> HasKey(pairs, k))
  }

  lemma {:induction false} MetaOfPairs(pairs: seq<Item>, meta: map<string, string>, acc: map<string, string>)
    requires forall i :: 0 <= i < |pairs| ==> pairs[i].Pair? && pairs[i].key in meta && pairs[i].value == meta[pairs[i].key]
    requires forall i :: 0 <= i < |pairs| ==> Trim(pairs[i].key) == pairs[i].key && Trim(pairs[i].value) == pairs[i].value
    requires forall k :: k in acc ==> k in meta && acc[k] == meta[k]
    ensures forall k :: k in MetaOf(pairs, acc) ==> k in meta && MetaOf(pairs, acc)[k] == meta[k]
    ensures forall k :: k in acc || HasKey(pairs, k) ==> k in MetaOf(pairs, acc)
    decreases |pairs|
  {
    if pairs != [] {
      var it, rest := pairs[0], pairs[1..];
      var acc1 := acc[it.key := it.value];
      MetaOfPairs(rest, meta, acc1);
      PairAdded(acc, it);
      assert MetaOf(pairs, acc) == MetaOf(rest, acc1);
      forall k | k in acc || HasKey(pairs, k) ensures k in acc1 || HasKey(rest, k) {
        KeyStays(pairs, acc, k);
      }
    }
  }

  lemma PairAdded(acc: map<string, string>, it: Item)
    requires it.Pair? && Trim(it.key) == it.key && Trim(it.value) == it.value
    ensures AddMeta(acc, it) == acc[it.key := it.value]
  {
  }

  lemma KeyStays(pairs: seq<Item>, acc: map<string, string>, k: string)
    requires pairs != [] && pairs[0].Pair? && (k in acc || HasKey(pairs, k))
    ensures k in acc[pairs[0].key := pairs[0].value] || HasKey(pairs[1..], k)
  {
    if k !in acc && k != pairs[0].key {
      var i :| 0 <= i < |pairs| && pairs[i].Pair? && pairs[i].key == k;
      assert pairs[1..][i - 1].key == k;
    }
  }

  /** Every input has a normal form: printing what was extracted, in any order of the keys, and
      extracting again gives the same label and the same metadata. */
  lemma ExtractPrintExtract(s: string, pairs: seq<Item>)
    requires Lists(pairs, Extract(s).1)
    ensures Extract(Print([Text(Extract(s).0)] + pairs)) == Extract(s)
  {
    ExtractTrims(START, s);
    TrimIdempotent(FeedAll(START, s).caption);
    Reprint(Extract(s).0, Extract(s).1, pairs);
  }

  lemma Reprint(caption: string, meta: map<string, string>, pairs: seq<Item>)
    requires Trim(caption) == caption && Trimmed(meta) && Lists(pairs, meta)
    ensures Extract(Print([Text(caption)] + pairs)) == (caption, meta)
  {
    var items := [Text(caption)] + pairs;
    assert MetaOf(pairs, map[]) == meta by { PairsMakeMeta(pairs, meta); }
    CaptionThenPairs(caption, pairs);
    PairsOk(caption, pairs);
    PrintThenExtract(items);
  }

  lemma PairsOk(caption: string, pairs: seq<Item>)
    requires forall i :: 0 <= i < |pairs| ==> pairs[i].Pair?
    ensures var items := [Text(caption)] + pairs; forall i :: 0 <= i < |items| ==> ItemOk(items[i])
  {
  }

  lemma PairsMakeMeta(pairs: seq<Item>, meta: map<string, string>)
    requires Trimmed(meta) && Lists(pairs, meta)
    ensures MetaOf(pairs, map[]) == meta
  {
    PairsTrimmed(pairs, meta);
    MetaOfPairs(pairs, meta, map[]);
    SameMap(MetaOf(pairs, map[]), meta, pairs);
  }

  lemma PairsTrimmed(pairs: seq<Item>, meta: map<string, string>)
    requires Trimmed(meta) && Lists(pairs, meta)
    ensures forall i :: 0 <= i < |pairs| ==> Trim(pairs[i].key) == pairs[i].key && Trim(pairs[i].value) == pairs[i].value
  {
  }

  lemma SameMap(m: map<string, string>, meta: map<string, string>, pairs: seq<Item>)
    requires (forall k :: k in m ==> k in meta && m[k] == meta[k]) && (forall k :: HasKey(pairs, k) ==> k in m)
    requires Lists(pairs, meta)
    ensures m == meta
  {
    forall k | k in meta ensures k in m {
      assert HasKey(pairs, k);
    }
  }

  lemma CaptionThenPairs(caption: string, pairs: seq<Item>)
    requires forall i :: 0 <= i < |pairs| ==> pairs[i].Pair?
    ensures LabelOf([Text(caption)] + pairs) == caption
    ensures MetaOf([Text(caption)] + pairs, map[]) == MetaOf(pairs, map[])
  {
    LabelOfPairs(pairs);
    assert ([Text(caption)] + pairs)[1..] == pairs;
    assert caption + "" == caption;
  }

  lemma {:induction false} LabelOfPairs(pairs: seq<Item>)
    requires forall i :: 0 <= i < |pairs| ==> pairs[i].Pair?
    ensures LabelOf(pairs) == ""
    decreases |pairs|
  {
    if pairs != [] {
      LabelOfPairs(pairs[1..]);
    }
  }
}
