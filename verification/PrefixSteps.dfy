/**
 * The whole steps of a cut trajectory (maintenance/partial-cost.ts): prefixSteps reads the
 * objects of a JSON `steps` array that was cut anywhere, without repairing what is missing.
 * JSON.parse is a parameter; what the scan hands it is proved.
 */
module PrefixSteps {
  import opened Wrappers

  // ---- The scan, one character at a time ----

  /** `current` is the object being read, empty outside one; `closed` is the scan's end at the array's. */
  datatype Scanner = Scanner(depth: int, quoted: bool, escaped: bool, current: string, found: seq<string>, closed: bool)

  const START := Scanner(0, false, false, "", [], false)

  function Grown(s: Scanner, c: char): string {
    if s.depth > 0 then s.current + [c] else s.current
  }

  function Eat(s: Scanner, c: char): Scanner {
    if s.closed then s
    else if s.quoted then
      s.(current := Grown(s, c),
         escaped := !s.escaped && c == '\\',
         quoted := s.escaped || c != '"')
    else if c == '"' then s.(quoted := true, current := Grown(s, c))
    else if s.depth == 0 && c == ']' then s.(closed := true)
    else if c == '{' then s.(depth := s.depth + 1, current := if s.depth == 0 then [c] else Grown(s, c))
    else if c == '}' then
      if s.depth == 1 then s.(depth := 0, current := "", found := s.found + [s.current + [c]])
      else s.(depth := s.depth - 1, current := Grown(s, c))
    else s.(current := Grown(s, c))
  }

  function Run(s: Scanner, input: string): Scanner
    decreases |input|
  {
    if input == "" then s else Run(Eat(s, input[0]), input[1..])
  }

  lemma {:induction false} RunBoth(s: Scanner, a: string, b: string)
    ensures Run(s, a + b) == Run(Run(s, a), b)
    decreases |a|
  {
    if a == "" {
      assert a + b == b;
    } else {
      assert (a + b)[1..] == a[1..] + b;
      RunBoth(Eat(s, a[0]), a[1..], b);
    }
  }

  lemma RunOne(s: Scanner, c: char)
    ensures Run(s, [c]) == Eat(s, c)
  {
    assert [c][1..] == "";
  }

  // ---- Where the array starts ----

  /** JavaScript's \s, which trimStart drops too. */
  predicate Space(c: char) {
    || c in {' ', '\t', '\n', '\U{B}', '\U{C}', '\r', '\U{A0}', '\U{1680}', '\U{2028}', '\U{2029}', '\U{202F}', '\U{205F}', '\U{3000}', '\U{FEFF}'}
    || '\U{2000}' <= c <= '\U{200A}'
  }

  function SkipSpaces(text: string, i: nat): (j: nat)
    requires i <= |text|
    ensures i <= j <= |text|
    ensures j < |text| ==> !Space(text[j])
    ensures forall k :: i <= k < j ==> Space(text[k])
    decreases |text| - i
  {
    if i < |text| && Space(text[i]) then SkipSpaces(text, i + 1) else i
  }

  const KEY := "\"steps\""

  /** The end of a match of /"steps"\s*:\s*\[/ at `i`. */
  function MatchAt(text: string, i: nat): (end: Option<nat>)
    ensures end.Some? ==> i + 9 <= end.value <= |text| && text[i] == '"'
  {
    if i + |KEY| <= |text| && text[i..i + |KEY|] == KEY then
      assert text[i] == text[i..i + |KEY|][0];
      var colon := SkipSpaces(text, i + |KEY|);
      if colon < |text| && text[colon] == ':' then
        var open := SkipSpaces(text, colon + 1);
        if open < |text| && text[open] == '[' then Some(open + 1) else None
      else None
    else None
  }

  /** The end of the first match at or after `i`. */
  function FirstMatch(text: string, i: nat): Option<nat>
    requires i <= |text|
    decreases |text| - i
  {
    if i == |text| then None
    else if MatchAt(text, i).Some? then MatchAt(text, i)
    else FirstMatch(text, i + 1)
  }

  /** Where the scan begins, if the text is an object with a `steps` array. */
  function ArrayStart(text: string): (start: Option<nat>)
    ensures start.Some? ==> start.value <= |text|
  {
    var first := SkipSpaces(text, 0);
    if first < |text| && text[first] == '{' then
      MatchBounds(text, 0);
      FirstMatch(text, 0)
    else None
  }

  lemma {:induction false} MatchBounds(text: string, i: nat)
    requires i <= |text|
    ensures FirstMatch(text, i).Some? ==> FirstMatch(text, i).value <= |text|
    decreases |text| - i
  {
    if i < |text| {
      MatchBounds(text, i + 1);
    }
  }

  // ---- prefixSteps ----

  /** What parsing each object in turn gives; nothing at all when one does not parse. */
  function Parsed<V>(found: seq<string>, parse: string -> Option<V>): Option<seq<V>> {
    if found == [] then Some([])
    else
      var init := Parsed(found[..|found| - 1], parse);
      var last := parse(found[|found| - 1]);
      if init.None? || last.None? then None else Some(init.value + [last.value])
  }

  function StepsOf<V>(text: string, parse: string -> Option<V>): seq<V> {
    var start := ArrayStart(text);
    if start.None? then []
    else
      var steps := Parsed(Run(START, text[start.value..]).found, parse);
      if steps.None? then [] else steps.value
  }

  lemma {:induction false} FoundGrows(s: Scanner, input: string)
    ensures s.found <= Run(s, input).found
    ensures s.closed ==> Run(s, input) == s
    decreases |input|
  {
    if input != "" {
      FoundGrows(Eat(s, input[0]), input[1..]);
    }
  }

  lemma {:induction false} UnparsedStays<V>(found: seq<string>, all: seq<string>, parse: string -> Option<V>)
    requires found <= all && Parsed(found, parse).None?
    ensures Parsed(all, parse).None?
    decreases |all|
  {
    if found != all {
      assert found <= all[..|all| - 1];
      UnparsedStays(found, all[..|all| - 1], parse);
    }
  }

  /** The scan's variables before character `i`, as the loop keeps them. */
  predicate Tracks(s: Scanner, text: string, i: nat, depth: int, quoted: bool, escaped: bool, begin: int) {
    && s.depth == depth && s.quoted == quoted && s.escaped == escaped && !s.closed
    && i <= |text| && (escaped ==> quoted)
    && (depth > 0 ==> 0 <= begin <= i && s.current == text[begin..i])
  }

  lemma EatTracks(s: Scanner, text: string, i: nat, depth: int, quoted: bool, escaped: bool, begin: int)
    requires Tracks(s, text, i, depth, quoted, escaped, begin) && i < |text|
    ensures var c, t := text[i], Eat(s, text[i]);
            if quoted then t.found == s.found && Tracks(t, text, i + 1, depth, escaped || c != '"', !escaped && c == '\\', begin)
            else if c == '"' then t.found == s.found && Tracks(t, text, i + 1, depth, true, false, begin)
            else if depth == 0 && c == ']' then t.closed && t.found == s.found
            else if c == '{' then t.found == s.found && Tracks(t, text, i + 1, depth + 1, false, false, if depth == 0 then i else begin)
            else if c == '}' then
              && Tracks(t, text, i + 1, depth - 1, false, false, begin)
              && if depth == 1 then t.found == s.found + [text[begin..i + 1]] else t.found == s.found
            else t.found == s.found && Tracks(t, text, i + 1, depth, false, false, begin)
  {
    if depth > 0 {
      assert text[begin..i] + [text[i]] == text[begin..i + 1];
    }
    assert text[i..i + 1] == [text[i]];
  }

  lemma ClosedFinds(s: Scanner, input: string)
    requires input != "" && Eat(s, input[0]).closed && Eat(s, input[0]).found == s.found
    ensures Run(s, input).found == s.found
  {
    FoundGrows(Eat(s, input[0]), input[1..]);
  }

  lemma ParsedMore<V>(s: Scanner, t: Scanner, one: string, parse: string -> Option<V>, steps: seq<V>)
    requires Parsed(s.found, parse) == Some(steps) && t.found == s.found + [one]
    ensures Parsed(t.found, parse) == if parse(one).None? then None else Some(steps + [parse(one).value])
  {
    assert t.found[..|s.found|] == s.found;
  }

  lemma NothingParses<V>(s: Scanner, input: string, parse: string -> Option<V>)
    requires Parsed(s.found, parse).None?
    ensures Parsed(Run(s, input).found, parse).None?
  {
    FoundGrows(s, input);
    UnparsedStays(s.found, Run(s, input).found, parse);
  }

  method PrefixStepsOf<V>(text: string, parse: string -> Option<V>) returns (steps: seq<V>)
    ensures steps == StepsOf(text, parse)
  {
    var start := ArrayStart(text);
    if start.None? { return []; }
    steps := [];
    var depth: int, quoted, escaped, begin := 0, false, false, -1;
    var i := start.value;
    ghost var s := START;
    while i < |text|
      invariant start.value <= i <= |text|
      invariant Tracks(s, text, i, depth, quoted, escaped, begin)
      invariant Parsed(s.found, parse) == Some(steps)
      invariant Run(START, text[start.value..]) == Run(s, text[i..])
    {
      var c := text[i];
      assert text[i..][0] == c && text[i..][1..] == text[i + 1..];
      EatTracks(s, text, i, depth, quoted, escaped, begin);
      ghost var before := s;
      s := Eat(s, c);
      i := i + 1;
      if quoted {
        if escaped { escaped := false; }
        else if c == '\\' { escaped := true; }
        else if c == '"' { quoted := false; }
        continue;
      }
      if c == '"' { quoted := true; continue; }
      if depth == 0 && c == ']' {
        ClosedFinds(before, text[i - 1..]);
        return;
      }
      if c == '{' {
        if depth == 0 { begin := i - 1; }
        depth := depth + 1;
      } else if c == '}' {
        depth := depth - 1;
        if depth == 0 && begin >= 0 {
          var step := parse(text[begin..i]);
          ParsedMore(before, s, text[begin..i], parse, steps);
          if step.None? {
            NothingParses(s, text[i..], parse);
            return [];
          }
          steps := steps + [step.value];
        }
      }
    }
    assert text[i..] == "";
  }

  // ---- JSON as it is printed (sections 2 to 7 of RFC 8259), any white space kept ----

  /** A character of a string: itself, or a backslash and the character after it. */
  datatype StringChar = Plain(c: char) | Escaped(c: char)

  datatype Json =
    | Atom(token: string)
    | Text(chars: seq<StringChar>)
    | Array(space: string, items: seq<Item>)
    | Object(space: string, members: seq<Member>)

  /** A value with the white space around it. */
  datatype Item = Item(before: string, value: Json, after: string)

  datatype Member = Member(before: string, key: seq<StringChar>, after: string, item: Item)

  predicate White(s: string) {
    forall i :: 0 <= i < |s| ==> s[i] in {' ', '\t', '\n', '\r'}
  }

  predicate TokenChar(c: char) {
    'a' <= c <= 'z' || 'A' <= c <= 'Z' || '0' <= c <= '9' || c in {'+', '-', '.'}
  }

  predicate StringOk(chars: seq<StringChar>) {
    forall i :: 0 <= i < |chars| ==> (chars[i].Plain? ==> chars[i].c != '"' && chars[i].c != '\\')
  }

  predicate Ok(v: Json) {
    match v
    case Atom(token) => forall i :: 0 <= i < |token| ==> TokenChar(token[i])
    case Text(chars) => StringOk(chars)
    case Array(space, items) => White(space) && forall i :: 0 <= i < |items| ==> ItemOk(items[i])
    case Object(space, members) => White(space) && forall i :: 0 <= i < |members| ==> MemberOk(members[i])
  }

  predicate ItemOk(item: Item) {
    White(item.before) && White(item.after) && Ok(item.value)
  }

  predicate MemberOk(member: Member) {
    White(member.before) && StringOk(member.key) && White(member.after) && ItemOk(member.item)
  }

  function PrintChars(chars: seq<StringChar>): string {
    if chars == [] then "" else PrintChar(chars[0]) + PrintChars(chars[1..])
  }

  function Print(v: Json): string
    decreases v, 1
  {
    match v
    case Atom(token) => token
    case Text(chars) => "\"" + PrintChars(chars) + "\""
    case Array(space, items) => "[" + (if items == [] then space else PrintItems(items)) + "]"
    case Object(space, members) => "{" + Inside(v) + "}"
  }

  /** What an object prints between its braces. */
  function Inside(v: Json): string
    requires v.Object?
    decreases v, 0
  {
    if v.members == [] then v.space else PrintMembers(v.members)
  }

  function PrintItem(item: Item): string
    decreases item, 0
  {
    item.before + Print(item.value) + item.after
  }

  function PrintItems(items: seq<Item>): string
    decreases items
  {
    if items == [] then ""
    else PrintItem(items[0]) + (if |items| == 1 then "" else "," + PrintItems(items[1..]))
  }

  function PrintMember(member: Member): string
    decreases member, 0
  {
    member.before + "\"" + PrintChars(member.key) + "\"" + member.after + ":" + PrintItem(member.item)
  }

  function PrintMembers(members: seq<Member>): string
    decreases members
  {
    if members == [] then ""
    else PrintMember(members[0]) + (if |members| == 1 then "" else "," + PrintMembers(members[1..]))
  }

  // ---- Scanning what JSON prints ----

  /** Between values: not in a string, not past the array. */
  predicate Ready(s: Scanner) {
    !s.quoted && !s.escaped && !s.closed
  }

  /** `text` read inside an object leaves everything but the object's text as it was. */
  predicate Passes(s: Scanner, text: string) {
    Run(s, text) == s.(current := s.current + text)
  }

  /** Inside an object, `text` is only passed over. */
  ghost predicate Passive(text: string) {
    forall s: Scanner :: Ready(s) && s.depth >= 1 ==> Passes(s, text)
  }

  lemma PassBoth(s: Scanner, a: string, b: string)
    requires Passes(s, a) && Passes(s.(current := s.current + a), b)
    ensures Passes(s, a + b)
  {
    RunBoth(s, a, b);
    assert (s.current + a) + b == s.current + (a + b);
  }

  lemma PassiveBoth(a: string, b: string)
    requires Passive(a) && Passive(b)
    ensures Passive(a + b)
  {
    forall s: Scanner | Ready(s) && s.depth >= 1 ensures Passes(s, a + b) {
      var t := s.(current := s.current + a);
      assert Passes(s, a);
      assert Ready(t) && t.depth >= 1;
      assert Passes(t, b);
      PassBoth(s, a, b);
    }
  }

  predicate Filler(c: char) {
    c != '"' && c != '{' && c != '}'
  }

  lemma {:induction false} FillersPass(s: Scanner, text: string)
    requires forall i :: 0 <= i < |text| ==> Filler(text[i])
    requires Ready(s) && s.depth >= 1
    ensures Passes(s, text)
    decreases |text|
  {
    if text == "" {
      assert s.current + text == s.current;
    } else {
      FillersPass(Eat(s, text[0]), text[1..]);
      assert (s.current + [text[0]]) + text[1..] == s.current + text;
    }
  }

  lemma FillersArePassive(text: string)
    requires forall i :: 0 <= i < |text| ==> Filler(text[i])
    ensures Passive(text)
  {
    forall s: Scanner | Ready(s) && s.depth >= 1 ensures Passes(s, text) {
      FillersPass(s, text);
    }
  }

  predicate InString(s: Scanner) {
    s.quoted && !s.escaped && !s.closed && s.depth >= 1
  }

  function PrintChar(c: StringChar): string {
    if c.Plain? then [c.c] else ['\\', c.c]
  }

  lemma CharPasses(s: Scanner, c: StringChar)
    requires InString(s) && StringOk([c])
    ensures Passes(s, PrintChar(c))
  {
    assert [c][0] == c;
    if c.Plain? {
      RunOne(s, c.c);
    } else {
      RunBoth(s, ['\\'], [c.c]);
      assert ['\\'] + [c.c] == PrintChar(c);
      RunOne(s, '\\');
      RunOne(Eat(s, '\\'), c.c);
      assert (s.current + ['\\']) + [c.c] == s.current + PrintChar(c);
    }
  }

  lemma {:induction false} CharsPass(s: Scanner, chars: seq<StringChar>)
    requires StringOk(chars) && InString(s)
    ensures Passes(s, PrintChars(chars))
    decreases |chars|
  {
    if chars == [] {
      assert s.current + "" == s.current;
    } else {
      CharPasses(s, chars[0]);
      CharsPass(s.(current := s.current + PrintChar(chars[0])), chars[1..]);
      PassBoth(s, PrintChar(chars[0]), PrintChars(chars[1..]));
    }
  }

  lemma RunThree(s: Scanner, a: string, t: Scanner, b: string, u: Scanner, c: string, v: Scanner)
    requires Run(s, a) == t && Run(t, b) == u && Run(u, c) == v
    ensures Run(s, a + b + c) == v
  {
    RunBoth(s, a, b);
    RunBoth(s, a + b, c);
  }

  lemma QuotedPasses(s: Scanner, chars: seq<StringChar>)
    requires StringOk(chars) && Ready(s) && s.depth >= 1
    ensures Passes(s, "\"" + PrintChars(chars) + "\"")
  {
    var text := PrintChars(chars);
    var inner := s.(quoted := true, current := s.current + "\"");
    var done := inner.(current := inner.current + text);
    RunOne(s, '"');
    CharsPass(inner, chars);
    RunOne(done, '"');
    assert ((s.current + "\"") + text) + "\"" == s.current + ("\"" + text + "\"");
    RunThree(s, "\"", inner, text, done, "\"", s.(current := s.current + ("\"" + text + "\"")));
  }

  lemma StringsArePassive(chars: seq<StringChar>)
    requires StringOk(chars)
    ensures Passive("\"" + PrintChars(chars) + "\"")
  {
    forall s: Scanner | Ready(s) && s.depth >= 1 ensures Passes(s, "\"" + PrintChars(chars) + "\"") {
      QuotedPasses(s, chars);
    }
  }

  lemma BracedPasses(s: Scanner, inside: string)
    requires Ready(s) && s.depth >= 1
    requires Passes(s.(depth := s.depth + 1, current := s.current + "{"), inside)
    ensures Passes(s, "{" + inside + "}")
  {
    var inner := s.(depth := s.depth + 1, current := s.current + "{");
    var done := inner.(current := inner.current + inside);
    RunOne(s, '{');
    RunOne(done, '}');
    assert ((s.current + "{") + inside) + "}" == s.current + ("{" + inside + "}");
    RunThree(s, "{", inner, inside, done, "}", s.(current := s.current + ("{" + inside + "}")));
  }

  /** Braces around what is passive, inside an object: deeper and back. */
  lemma BracedIsPassive(inside: string)
    requires Passive(inside)
    ensures Passive("{" + inside + "}")
  {
    forall s: Scanner | Ready(s) && s.depth >= 1 ensures Passes(s, "{" + inside + "}") {
      var inner := s.(depth := s.depth + 1, current := s.current + "{");
      assert Ready(inner) && Passes(inner, inside);
      BracedPasses(s, inside);
    }
  }

  lemma {:induction false} ValuesArePassive(v: Json)
    requires Ok(v)
    ensures Passive(Print(v))
    decreases v, 1
  {
    match v
    case Atom(token) => FillersArePassive(token);
    case Text(chars) => StringsArePassive(chars);
    case Array(space, items) =>
      FillersArePassive("[");
      FillersArePassive("]");
      if items == [] {
        FillersArePassive(space);
        PassiveBoth("[", space);
        PassiveBoth("[" + space, "]");
      } else {
        ItemsArePassive(items);
        PassiveBoth("[", PrintItems(items));
        PassiveBoth("[" + PrintItems(items), "]");
      }
    case Object(space, members) =>
      InsideIsPassive(v);
      BracedIsPassive(Inside(v));
  }

  lemma {:induction false} InsideIsPassive(v: Json)
    requires Ok(v) && v.Object?
    ensures Passive(Inside(v))
    decreases v, 0
  {
    if v.members == [] {
      FillersArePassive(v.space);
    } else {
      MembersArePassive(v.members);
    }
  }

  lemma {:induction false} ItemIsPassive(item: Item)
    requires ItemOk(item)
    ensures Passive(PrintItem(item))
    decreases item, 2
  {
    FillersArePassive(item.before);
    ValuesArePassive(item.value);
    FillersArePassive(item.after);
    PassiveBoth(item.before, Print(item.value));
    PassiveBoth(item.before + Print(item.value), item.after);
  }

  lemma {:induction false} ItemsArePassive(items: seq<Item>)
    requires forall i :: 0 <= i < |items| ==> ItemOk(items[i])
    ensures Passive(PrintItems(items))
    decreases items
  {
    if items == [] {
      FillersArePassive("");
    } else {
      ItemIsPassive(items[0]);
      if |items| == 1 {
        assert PrintItems(items) == PrintItem(items[0]);
      } else {
        ItemsArePassive(items[1..]);
        FillersArePassive(",");
        PassiveBoth(",", PrintItems(items[1..]));
        PassiveBoth(PrintItem(items[0]), "," + PrintItems(items[1..]));
      }
    }
  }

  lemma {:induction false} MemberIsPassive(member: Member)
    requires MemberOk(member)
    ensures Passive(PrintMember(member))
    decreases member, 2
  {
    var key := "\"" + PrintChars(member.key) + "\"";
    FillersArePassive(member.before);
    StringsArePassive(member.key);
    FillersArePassive(member.after);
    FillersArePassive(":");
    ItemIsPassive(member.item);
    PassiveBoth(member.before, key);
    PassiveBoth(member.before + key, member.after);
    PassiveBoth(member.before + key + member.after, ":");
    PassiveBoth(member.before + key + member.after + ":", PrintItem(member.item));
    assert PrintMember(member) == member.before + key + member.after + ":" + PrintItem(member.item);
  }

  lemma {:induction false} MembersArePassive(members: seq<Member>)
    requires forall i :: 0 <= i < |members| ==> MemberOk(members[i])
    ensures Passive(PrintMembers(members))
    decreases members
  {
    if members == [] {
      FillersArePassive("");
    } else {
      MemberIsPassive(members[0]);
      if |members| == 1 {
        assert PrintMembers(members) == PrintMember(members[0]);
      } else {
        MembersArePassive(members[1..]);
        FillersArePassive(",");
        PassiveBoth(",", PrintMembers(members[1..]));
        PassiveBoth(PrintMember(members[0]), "," + PrintMembers(members[1..]));
      }
    }
  }

  // ---- The objects of the array ----

  /** Between objects: at the top of the array. */
  predicate AtTop(s: Scanner) {
    Ready(s) && s.depth == 0 && s.current == ""
  }

  lemma {:induction false} SpaceAtTop(s: Scanner, space: string)
    requires AtTop(s) && forall i :: 0 <= i < |space| ==> Filler(space[i]) && space[i] != ']'
    ensures Run(s, space) == s
    decreases |space|
  {
    if space != "" {
      SpaceAtTop(Eat(s, space[0]), space[1..]);
    }
  }

  /** An object is found when its closing brace is read, and not before. */
  lemma ObjectFound(s: Scanner, v: Json)
    requires AtTop(s) && Ok(v) && v.Object?
    ensures Run(s, Print(v)) == s.(found := s.found + [Print(v)])
    ensures Run(s, "{" + Inside(v)).found == s.found
  {
    OpenedObject(s, v);
    RunBoth(s, "{" + Inside(v), "}");
    RunOne(Run(Eat(s, '{'), Inside(v)), '}');
    assert "{" + Inside(v) + "}" == Print(v);
  }

  lemma OpenedObject(s: Scanner, v: Json)
    requires AtTop(s) && Ok(v) && v.Object?
    ensures Run(s, "{" + Inside(v)) == Run(Eat(s, '{'), Inside(v))
    ensures Passes(Eat(s, '{'), Inside(v))
  {
    InsideIsPassive(v);
    RunBoth(s, "{", Inside(v));
    RunOne(s, '{');
  }

  /** A cut text finds no more than the text. */
  lemma NoEarlyFind(s: Scanner, whole: string, n: nat)
    requires n <= |whole| && Run(s, whole).found == s.found
    ensures Run(s, whole[..n]).found == s.found
  {
    assert whole == whole[..n] + whole[n..];
    RunBoth(s, whole[..n], whole[n..]);
    FoundGrows(s, whole[..n]);
    FoundGrows(Run(s, whole[..n]), whole[n..]);
  }

  /** The list of steps: objects with white space around them. */
  predicate StepsOk(items: seq<Item>) {
    forall i :: 0 <= i < |items| ==> ItemOk(items[i]) && items[i].value.Object?
  }

  /** Where the closing brace of object `i` ends, counted from the opening bracket. */
  function EndOf(items: seq<Item>, i: nat): nat
    requires i < |items|
  {
    if i == 0 then |items[0].before| + |Print(items[0].value)|
    else |PrintItem(items[0])| + 1 + EndOf(items[1..], i - 1)
  }

  function Printed(items: seq<Item>): seq<string> {
    seq(|items|, i requires 0 <= i < |items| => Print(items[i].value))
  }

  /** `k` objects end within the first `n` characters: exactly the first `k`. */
  predicate Whole(items: seq<Item>, n: nat, k: nat) {
    k <= |items| && forall i :: 0 <= i < |items| ==> (i < k <==> EndOf(items, i) <= n)
  }

  lemma {:induction false} EndsLater(items: seq<Item>, i: nat)
    requires i < |items|
    ensures EndOf(items, i) >= |items[0].before| + |Print(items[0].value)|
    ensures i > 0 ==> EndOf(items, i) > |PrintItem(items[0])|
  {
  }

  /** An array's text up to the end of its first object. */
  function FirstText(items: seq<Item>): string
    requires items != []
  {
    items[0].before + Print(items[0].value)
  }

  lemma CutBeforeFirst(s: Scanner, items: seq<Item>, text: string, n: nat)
    requires AtTop(s) && StepsOk(items) && items != []
    requires n < |FirstText(items)| && FirstText(items) <= text
    ensures Run(s, text[..n]).found == s.found
    ensures Whole(items, n, 0)
  {
    var before, v := items[0].before, items[0].value;
    var inside := before + ("{" + Inside(v));
    assert Print(v) == "{" + Inside(v) + "}";
    assert text[..n] == inside[..n];
    SpaceAtTop(s, before);
    RunBoth(s, before, "{" + Inside(v));
    ObjectFound(s, v);
    NoEarlyFind(s, inside, n);
    forall i | 0 <= i < |items| ensures EndOf(items, i) > n {
      EndsLater(items, i);
    }
  }

  lemma FirstFound(s: Scanner, item: Item)
    requires AtTop(s) && ItemOk(item) && item.value.Object?
    ensures Run(s, item.before + Print(item.value)) == s.(found := s.found + [Print(item.value)])
  {
    SpaceAtTop(s, item.before);
    RunBoth(s, item.before, Print(item.value));
    ObjectFound(s, item.value);
  }

  /** What follows the items: the closing bracket, then any text at all. */
  function ArrayText(items: seq<Item>, tail: string): string {
    PrintItems(items) + "]" + tail
  }

  /** ... and from there on. */
  function RestText(items: seq<Item>, tail: string): string
    requires items != []
  {
    items[0].after + if |items| == 1 then "]" + tail else "," + ArrayText(items[1..], tail)
  }

  lemma AfterFirst(items: seq<Item>, tail: string)
    requires items != []
    ensures ArrayText(items, tail) == FirstText(items) + RestText(items, tail)
  {
    assert PrintItem(items[0]) == FirstText(items) + items[0].after;
    if |items| == 1 {
      assert PrintItems(items) == PrintItem(items[0]);
    }
  }

  lemma {:induction false} CutArrayFinds(s: Scanner, items: seq<Item>, tail: string, n: nat) returns (k: nat)
    requires AtTop(s) && StepsOk(items) && n <= |ArrayText(items, tail)|
    ensures Whole(items, n, k)
    ensures Run(s, ArrayText(items, tail)[..n]).found == s.found + Printed(items[..k])
    decreases |items|
  {
    var text := ArrayText(items, tail);
    if items == [] {
      k := 0;
      if n > 0 {
        assert text[..n][0] == ']';
        ClosedFinds(s, text[..n]);
      }
      return;
    }
    var first, rest := FirstText(items), RestText(items, tail);
    AfterFirst(items, tail);
    if n < |first| {
      CutBeforeFirst(s, items, text, n);
      k := 0;
      return;
    }
    var t := s.(found := s.found + [Print(items[0].value)]);
    FirstFound(s, items[0]);
    assert text[..n] == first + rest[..n - |first|];
    RunBoth(s, first, rest[..n - |first|]);
    k := CutAfterFirst(t, items, tail, n - |first|);
    assert Printed(items[..k]) == [Print(items[0].value)] + Printed(items[1..k]);
  }

  /** The text ends in the white space after the first object. */
  lemma CutInSpace(t: Scanner, items: seq<Item>, tail: string, n: nat)
    requires AtTop(t) && StepsOk(items) && items != [] && n <= |items[0].after|
    ensures Run(t, RestText(items, tail)[..n]).found == t.found && Whole(items, |FirstText(items)| + n, 1)
  {
    assert RestText(items, tail)[..n] == items[0].after[..n];
    SpaceAtTop(t, items[0].after[..n]);
    forall i | 0 < i < |items| ensures EndOf(items, i) > |FirstText(items)| + n {
      EndsLater(items, i);
    }
  }

  /** It ends past the closing bracket. */
  lemma CutPastEnd(t: Scanner, items: seq<Item>, tail: string, n: nat)
    requires AtTop(t) && StepsOk(items) && |items| == 1 && |items[0].after| < n <= |RestText(items, tail)|
    ensures Run(t, RestText(items, tail)[..n]).found == t.found
  {
    var after := items[0].after;
    var closed := ("]" + tail)[..n - |after|];
    assert RestText(items, tail)[..n] == after + closed;
    SpaceAtTop(t, after);
    RunBoth(t, after, closed);
    ClosedFinds(t, closed);
  }

  /** It goes on past the comma: the scanner is at the top of the array that is left. */
  lemma CutPastComma(t: Scanner, items: seq<Item>, tail: string, n: nat)
    requires AtTop(t) && StepsOk(items) && |items| > 1 && |items[0].after| < n <= |RestText(items, tail)|
    ensures Run(t, RestText(items, tail)[..n]) == Run(t, ArrayText(items[1..], tail)[..n - |items[0].after| - 1])
  {
    var after := items[0].after;
    var more := ArrayText(items[1..], tail)[..n - |after| - 1];
    assert RestText(items, tail)[..n] == (after + ",") + more;
    SpaceAtTop(t, after);
    SpaceAtTop(t, ",");
    RunBoth(t, after, ",");
    RunBoth(t, after + ",", more);
  }

  lemma WholeOneMore(items: seq<Item>, n: nat, j: nat)
    requires |items| > 1 && Whole(items[1..], n, j)
    ensures Whole(items, |PrintItem(items[0])| + 1 + n, j + 1)
  {
    forall i | 0 <= i < |items| ensures i < j + 1 <==> EndOf(items, i) <= |PrintItem(items[0])| + 1 + n {
      if i > 0 {
        assert EndOf(items, i) == |PrintItem(items[0])| + 1 + EndOf(items[1..], i - 1);
      }
    }
  }

  lemma {:induction false} CutAfterFirst(t: Scanner, items: seq<Item>, tail: string, n: nat) returns (k: nat)
    requires AtTop(t) && StepsOk(items) && items != [] && n <= |RestText(items, tail)|
    ensures k > 0 && Whole(items, |FirstText(items)| + n, k)
    ensures Run(t, RestText(items, tail)[..n]).found == t.found + Printed(items[1..k])
    decreases |items|, 0
  {
    var after := items[0].after;
    if n <= |after| {
      CutInSpace(t, items, tail, n);
      k := 1;
    } else if |items| == 1 {
      CutPastEnd(t, items, tail, n);
      k := 1;
    } else {
      CutPastComma(t, items, tail, n);
      var j := CutArrayFinds(t, items[1..], tail, n - |after| - 1);
      WholeOneMore(items, n - |after| - 1, j);
      k := j + 1;
      assert items[1..k] == items[1..][..j];
    }
  }

  // ---- The start is found in the cut text too ----

  lemma {:induction false} SkipCut(text: string, i: nat, cut: nat)
    requires i <= cut <= |text|
    ensures SkipSpaces(text[..cut], i) == if SkipSpaces(text, i) < cut then SkipSpaces(text, i) else cut
    decreases cut - i
  {
    if i < cut && Space(text[i]) {
      SkipCut(text, i + 1, cut);
    }
  }

  lemma MatchCut(text: string, i: nat, cut: nat)
    requires i <= cut <= |text|
    ensures MatchAt(text[..cut], i) ==
            if MatchAt(text, i).Some? && MatchAt(text, i).value <= cut then MatchAt(text, i) else None
  {
    if i + |KEY| <= cut {
      assert text[..cut][i..i + |KEY|] == text[i..i + |KEY|];
      SkipCut(text, i + |KEY|, cut);
      var colon := SkipSpaces(text, i + |KEY|);
      if colon + 1 <= cut {
        SkipCut(text, colon + 1, cut);
      }
    }
  }

  lemma {:induction false} FirstMatchCut(text: string, i: nat, cut: nat)
    requires i <= cut <= |text|
    requires FirstMatch(text, i).Some? && FirstMatch(text, i).value <= cut
    ensures FirstMatch(text[..cut], i) == FirstMatch(text, i)
    decreases cut - i
  {
    MatchCut(text, i, cut);
    if MatchAt(text, i).None? && i < cut {
      FirstMatchCut(text, i + 1, cut);
    } else if i == cut {
      MatchEndsPast(text, i);
    }
  }

  lemma {:induction false} MatchEndsPast(text: string, i: nat)
    requires i <= |text| && FirstMatch(text, i).Some?
    ensures i < FirstMatch(text, i).value
    ensures SkipSpaces(text, i) < FirstMatch(text, i).value
    decreases |text| - i
  {
    if MatchAt(text, i).None? {
      MatchEndsPast(text, i + 1);
    }
  }

  lemma StartSurvivesCut(text: string, cut: nat)
    requires ArrayStart(text).Some? && ArrayStart(text).value <= cut <= |text|
    ensures ArrayStart(text[..cut]) == ArrayStart(text)
  {
    SkipCut(text, 0, cut);
    MatchEndsPast(text, 0);
    FirstMatchCut(text, 0, cut);
  }

  lemma {:induction false} ParsedAll<V>(items: seq<Item>, values: seq<V>, parse: string -> Option<V>)
    requires |values| == |items|
    requires forall i :: 0 <= i < |items| ==> parse(Print(items[i].value)) == Some(values[i])
    ensures Parsed(Printed(items), parse) == Some(values)
  {
    if items != [] {
      var n := |items| - 1;
      assert Printed(items)[..n] == Printed(items[..n]);
      ParsedAll(items[..n], values[..n], parse);
      assert values[..n] + [values[n]] == values;
    }
  }

  /** A trajectory whose `steps` array holds these objects, followed by anything, cut anywhere after
      the array's opening bracket: prefixSteps returns exactly the objects whose closing brace lies
      before the cut, in order. */
  lemma CutTrajectoryKeepsWholeObjects<V>(header: string, items: seq<Item>, tail: string, cut: nat,
                                          parse: string -> Option<V>, values: seq<V>) returns (k: nat)
    requires StepsOk(items)
    requires ArrayStart(header + ArrayText(items, tail)) == Some(|header|)
    requires |header| <= cut <= |header + ArrayText(items, tail)|
    requires |values| == |items|
    requires forall i :: 0 <= i < |items| ==> parse(Print(items[i].value)) == Some(values[i])
    ensures Whole(items, cut - |header|, k)
    ensures StepsOf((header + ArrayText(items, tail))[..cut], parse) == values[..k]
  {
    k := CutArrayFinds(START, items, tail, cut - |header|);
    ParsedAll(items[..k], values[..k], parse);
    StepsOfCut(header, ArrayText(items, tail), cut, Printed(items[..k]), parse);
  }

  /** Cut after the bracket, the steps are what the scanner finds in the array's text that is left. */
  lemma StepsOfCut<V>(header: string, inside: string, cut: nat, found: seq<string>, parse: string -> Option<V>)
    requires ArrayStart(header + inside) == Some(|header|) && |header| <= cut <= |header + inside|
    requires Run(START, inside[..cut - |header|]).found == START.found + found && Parsed(found, parse).Some?
    ensures StepsOf((header + inside)[..cut], parse) == Parsed(found, parse).value
  {
    StartSurvivesCut(header + inside, cut);
    assert (header + inside)[..cut][|header|..] == inside[..cut - |header|];
    assert START.found + found == found;
  }

  /** An array with nothing in it but white space yields nothing, wherever it is cut and whatever follows. */
  lemma EmptyArrayHasNone<V>(header: string, space: string, tail: string, cut: nat, parse: string -> Option<V>)
    requires White(space) && ArrayStart(header + (space + "]" + tail)) == Some(|header|)
    requires |header| <= cut <= |header + (space + "]" + tail)|
    ensures StepsOf((header + (space + "]" + tail))[..cut], parse) == []
  {
    var inside := space + "]" + tail;
    var n := cut - |header|;
    StartSurvivesCut(header + inside, cut);
    assert (header + inside)[..cut][|header|..] == inside[..n];
    if n <= |space| {
      assert inside[..n] == space[..n];
      SpaceAtTop(START, space[..n]);
    } else {
      assert inside[..n] == space + ("]" + tail)[..n - |space|];
      SpaceAtTop(START, space);
      RunBoth(START, space, ("]" + tail)[..n - |space|]);
      ClosedFinds(START, ("]" + tail)[..n - |space|]);
    }
  }

  // ---- Where the array starts, told in the text ----

  predicate SpaceBetween(text: string, from: nat, to: nat)
    requires to <= |text|
  {
    forall k :: from <= k < to ==> Space(text[k])
  }

  predicate ColonAt(text: string, i: nat, colon: nat, end: nat)
    requires i + 9 <= end <= |text|
  {
    && i + 7 <= colon < end - 1 && text[colon] == ':' && text[end - 1] == '['
    && SpaceBetween(text, i + 7, colon) && SpaceBetween(text, colon + 1, end - 1)
  }

  /** From `i` to `end` are the key "steps" in quotes, a colon and an opening bracket, with nothing but
      space between them. */
  predicate OpensSteps(text: string, i: nat, end: nat) {
    i + 9 <= end <= |text| && text[i..i + 7] == "\"steps\"" && exists colon: nat | colon < end :: ColonAt(text, i, colon, end)
  }

  lemma {:induction false} SkipsTo(text: string, i: nat, j: nat)
    requires i <= j < |text| && !Space(text[j]) && SpaceBetween(text, i, j)
    ensures SkipSpaces(text, i) == j
    decreases j - i
  {
    if i < j {
      SkipsTo(text, i + 1, j);
    }
  }

  lemma MatchOpens(text: string, i: nat, end: nat)
    requires i <= |text|
    ensures MatchAt(text, i) == Some(end) <==> OpensSteps(text, i, end)
  {
    if MatchAt(text, i) == Some(end) {
      assert ColonAt(text, i, SkipSpaces(text, i + 7), end);
    }
    if OpensSteps(text, i, end) {
      var colon: nat :| colon < end && ColonAt(text, i, colon, end);
      SkipsTo(text, i + 7, colon);
      SkipsTo(text, colon + 1, end - 1);
    }
  }

  /** The first opening at or after `i` is at `at` and ends at `end`. */
  ghost predicate FirstOpens(text: string, i: nat, at: nat, end: nat) {
    i <= at && OpensSteps(text, at, end) && forall j: nat, other: nat :: i <= j < at ==> !OpensSteps(text, j, other)
  }

  lemma {:induction false} FirstMatchOpens(text: string, i: nat) returns (at: nat)
    requires i <= |text| && FirstMatch(text, i).Some?
    ensures FirstOpens(text, i, at, FirstMatch(text, i).value)
    decreases |text| - i
  {
    forall other: nat
      ensures MatchAt(text, i) == Some(other) <==> OpensSteps(text, i, other)
    {
      MatchOpens(text, i, other);
    }
    if MatchAt(text, i).Some? {
      at := i;
    } else {
      at := FirstMatchOpens(text, i + 1);
    }
  }

  lemma {:induction false} FirstOpeningMatches(text: string, i: nat, at: nat, end: nat)
    requires i <= |text| && FirstOpens(text, i, at, end)
    ensures FirstMatch(text, i) == Some(end)
    decreases |text| - i
  {
    if i == at {
      MatchOpens(text, i, end);
    } else {
      if MatchAt(text, i).Some? {
        MatchOpens(text, i, MatchAt(text, i).value);
      }
      FirstOpeningMatches(text, i + 1, at, end);
    }
  }

  /** The scan begins after the first opening of a `steps` array in a text that begins, past space, with a brace. */
  lemma ArrayStartExactlyWhen(text: string, end: nat)
    ensures ArrayStart(text) == Some(end) <==>
              && (exists at: nat :: FirstOpens(text, 0, at, end))
              && (exists k: nat :: k < |text| && text[k] == '{' && SpaceBetween(text, 0, k))
  {
    if ArrayStart(text) == Some(end) {
      var at := FirstMatchOpens(text, 0);
      assert SpaceBetween(text, 0, SkipSpaces(text, 0));
    }
    if at: nat :| FirstOpens(text, 0, at, end) {
      FirstOpeningMatches(text, 0, at, end);
    }
    if k: nat :| k < |text| && text[k] == '{' && SpaceBetween(text, 0, k) {
      SkipsTo(text, 0, k);
    }
  }
}
