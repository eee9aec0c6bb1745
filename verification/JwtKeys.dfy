/** The signing-key list: its printed form kid:secret,kid:secret and the strict
    parser that reads it back. */
module JwtKeys {
  import opened Text

  datatype Key = Key(kid: string, secret: string)

  datatype Error =
    | EmptyItem
    | BadFormat
    | EmptyKid
    | EmptySecret(kid: string)
    | DuplicateKid(kid: string)
    | NoKeys

  datatype Result<T> = Ok(value: T) | Err(error: Error)

  // ----- strings.Split, strings.IndexByte

  /** The first position of c, or -1. */
  function IndexOf(s: string, c: char): (i: int)
    ensures -1 <= i < |s|
    ensures i >= 0 ==> s[i] == c && c !in s[..i]
    ensures i == -1 ==> c !in s
  {
    if s == "" then -1
    else if s[0] == c then 0
    else
      var i := IndexOf(s[1..], c);
      assert forall k :: 0 <= k < i ==> s[..i + 1][k + 1] == s[1..][..i][k];
      if i < 0 then -1 else i + 1
  }

  function Split(v: string): (parts: seq<string>)
    ensures parts != []
    decreases |v|
  {
    var i := IndexOf(v, ',');
    if i < 0 then [v] else [v[..i]] + Split(v[i + 1..])
  }

  function Join(parts: seq<string>): string {
    if parts == [] then ""
    else if |parts| == 1 then parts[0]
    else parts[0] + "," + Join(parts[1..])
  }

  predicate NoCommas(parts: seq<string>) {
    forall i :: 0 <= i < |parts| ==> ',' !in parts[i]
  }

  lemma JoinMore(x: string, parts: seq<string>)
    requires parts != [] && NoCommas(parts) && ',' !in x
    ensures NoCommas([x] + parts) && Join([x] + parts) == x + "," + Join(parts)
  {
    assert ([x] + parts)[1..] == parts;
  }

  /** Cutting at the commas loses nothing and leaves none. */
  lemma {:induction false} SplitParts(v: string)
    ensures NoCommas(Split(v)) && Join(Split(v)) == v
    decreases |v|
  {
    var i := IndexOf(v, ',');
    if i >= 0 {
      SplitParts(v[i + 1..]);
      JoinMore(v[..i], Split(v[i + 1..]));
      assert v == v[..i] + "," + v[i + 1..];
    }
  }

  lemma {:induction false} FirstMark(x: string, c: char, y: string)
    requires c !in x
    ensures IndexOf(x + [c] + y, c) == |x|
  {
    if x != "" {
      FirstMark(x[1..], c, y);
      assert (x + [c] + y)[1..] == x[1..] + [c] + y;
    }
  }

  lemma {:induction false} JoinParts(parts: seq<string>)
    requires parts != [] && NoCommas(parts)
    ensures Split(Join(parts)) == parts
  {
    if |parts| > 1 {
      var rest := parts[1..];
      JoinParts(rest);
      FirstMark(parts[0], ',', Join(rest));
      var v := Join(parts);
      assert v[..|parts[0]|] == parts[0] && v[|parts[0]| + 1..] == Join(rest);
    } else {
      assert Join(parts) == parts[0];
    }
  }

  lemma {:induction false} JoinSnoc(parts: seq<string>, x: string)
    requires parts != []
    ensures Join(parts + [x]) == Join(parts) + "," + x
  {
    if |parts| > 1 {
      JoinSnoc(parts[1..], x);
      assert (parts + [x])[1..] == parts[1..] + [x];
    } else {
      assert (parts + [x])[1..] == [x];
    }
  }

  // ----- splitCSVStrict

  function Trims(parts: seq<string>): seq<string> {
    seq(|parts|, i requires 0 <= i < |parts| => Trim(parts[i]))
  }

  predicate AllFilled(parts: seq<string>) {
    forall i :: 0 <= i < |parts| ==> Trim(parts[i]) != ""
  }

  function Items(v: string): Result<seq<string>> {
    if AllFilled(Split(v)) then Ok(Trims(Split(v))) else Err(EmptyItem)
  }

  method SplitCSVStrict(v: string) returns (r: Result<seq<string>>)
    ensures r == Items(v)
  {
    var parts := Split(v);
    var out: seq<string> := [];
    for n := 0 to |parts|
      invariant AllFilled(parts[..n]) && out == Trims(parts[..n])
    {
      var p := Trim(parts[n]);
      if p == "" {
        return Err(EmptyItem);
      }
      out := out + [p];
      assert parts[..n + 1] == parts[..n] + [parts[n]];
    }
    assert parts[..|parts|] == parts;
    return Ok(out);
  }

  // ----- joinJWTKeys

  function Printed(k: Key): string {
    Trim(k.kid) + ":" + k.secret
  }

  function Texts(keys: seq<Key>): (texts: seq<string>) {
    seq(|keys|, i requires 0 <= i < |keys| => Printed(keys[i]))
  }

  function Print(keys: seq<Key>): string {
    Join(Texts(keys))
  }

  method JoinJWTKeys(keys: seq<Key>) returns (text: string)
    ensures text == Print(keys)
  {
    if |keys| == 0 {
      return "";
    }
    text := "";
    for i := 0 to |keys|
      invariant text == Print(keys[..i])
    {
      assert Texts(keys[..i + 1]) == Texts(keys[..i]) + [Printed(keys[i])];
      if i > 0 {
        JoinSnoc(Texts(keys[..i]), Printed(keys[i]));
        text := text + ",";
      }
      text := text + Trim(keys[i].kid);
      text := text + ":";
      text := text + keys[i].secret;
    }
    assert keys[..|keys|] == keys;
  }

  // ----- parseJWTKeys

  function KeyOf(item: string): Result<Key> {
    var i := IndexOf(item, ':');
    if i <= 0 || i >= |item| - 1 then Err(BadFormat)
    else
      var kid, secret := Trim(item[..i]), item[i + 1..];
      if kid == "" then Err(EmptyKid)
      else if Trim(secret) == "" then Err(EmptySecret(kid))
      else Ok(Key(kid, secret))
  }

  function Prepend(done: seq<Key>, rest: Result<seq<Key>>): Result<seq<Key>> {
    if rest.Ok? then Ok(done + rest.value) else rest
  }

  lemma PrependMore(done: seq<Key>, k: Key, rest: Result<seq<Key>>)
    ensures Prepend(done + [k], rest) == Prepend(done, Prepend([k], rest))
  {
    if rest.Ok? {
      assert done + [k] + rest.value == done + ([k] + rest.value);
    }
  }

  /** The items read left to right; kids are those already taken. */
  function Keys(items: seq<string>, kids: set<string>): Result<seq<Key>> {
    if items == [] then Ok([])
    else
      var k := KeyOf(items[0]);
      if k.Err? then Err(k.error)
      else if k.value.kid in kids then Err(DuplicateKid(k.value.kid))
      else Prepend([k.value], Keys(items[1..], kids + {k.value.kid}))
  }

  function Parse(v: string): Result<seq<Key>> {
    var items := Items(v);
    if items.Err? then Err(items.error)
    else
      var keys := Keys(items.value, {});
      if keys == Ok([]) then Err(NoKeys) else keys
  }

  method ParseItem(it: string) returns (r: Result<Key>)
    ensures r == KeyOf(it)
  {
    var i := IndexOf(it, ':');
    if i <= 0 || i >= |it| - 1 {
      return Err(BadFormat);
    }
    var kid := Trim(it[..i]);
    var sec := it[i + 1..];
    if kid == "" {
      return Err(EmptyKid);
    }
    if Trim(sec) == "" {
      return Err(EmptySecret(kid));
    }
    return Ok(Key(kid, sec));
  }

  lemma NextItem(items: seq<string>, n: nat, seen: set<string>, out: seq<Key>)
    requires n < |items|
    ensures
      var k, now := KeyOf(items[n]), Prepend(out, Keys(items[n..], seen));
      if k.Err? then now == Err(k.error)
      else if k.value.kid in seen then now == Err(DuplicateKid(k.value.kid))
      else now == Prepend(out + [k.value], Keys(items[n + 1..], seen + {k.value.kid}))
  {
    assert items[n..][1..] == items[n + 1..];
    var k := KeyOf(items[n]);
    if k.Ok? {
      PrependMore(out, k.value, Keys(items[n + 1..], seen + {k.value.kid}));
    }
  }

  method ParseJWTKeys(v: string) returns (r: Result<seq<Key>>)
    ensures r == Parse(v)
  {
    var items := SplitCSVStrict(v);
    if items.Err? {
      return Err(items.error);
    }
    var out: seq<Key> := [];
    var seen: set<string> := {};
    ghost var all := Keys(items.value, {});
    assert items.value[0..] == items.value && (all.Ok? ==> [] + all.value == all.value);
    for n := 0 to |items.value|
      invariant all == Prepend(out, Keys(items.value[n..], seen))
    {
      NextItem(items.value, n, seen, out);
      var k := ParseItem(items.value[n]);
      if k.Err? {
        return Err(k.error);
      }
      if k.value.kid in seen {
        return Err(DuplicateKid(k.value.kid));
      }
      seen := seen + {k.value.kid};
      out := out + [k.value];
    }
    assert out + [] == out;
    if |out| == 0 {
      return Err(NoKeys);
    }
    return Ok(out);
  }

  // ----- the grammar

  /** A key that survives being printed. */
  predicate GoodKey(k: Key) {
    && k.kid != "" && Trimmed(k.kid) && ',' !in k.kid && ':' !in k.kid
    && k.secret != "" && ',' !in k.secret && !IsSpace(k.secret[|k.secret| - 1])
  }

  predicate Distinct(keys: seq<Key>) {
    forall i, j :: 0 <= i < j < |keys| ==> keys[i].kid != keys[j].kid
  }

  predicate WellFormed(keys: seq<Key>) {
    keys != [] && Distinct(keys) && forall i :: 0 <= i < |keys| ==> GoodKey(keys[i])
  }

  /** White space before the kid, between kid and colon, after the secret. */
  datatype Pad = Pad(before: string, between: string, after: string)

  predicate BlankPad(p: Pad) {
    AllSpace(p.before) && AllSpace(p.between) && AllSpace(p.after)
  }

  function Core(k: Key, p: Pad): string {
    k.kid + p.between + ":" + k.secret
  }

  function PaddedItem(k: Key, p: Pad): string {
    p.before + Core(k, p) + p.after
  }

  function PaddedItems(keys: seq<Key>, pads: seq<Pad>): seq<string>
    requires |keys| == |pads|
  {
    seq(|keys|, i requires 0 <= i < |keys| => PaddedItem(keys[i], pads[i]))
  }

  /** v is the list of keys, written with some white space around its parts. */
  ghost predicate Writes(v: string, keys: seq<Key>) {
    exists pads: seq<Pad> :: WrittenWith(v, keys, pads)
  }

  ghost predicate WrittenWith(v: string, keys: seq<Key>, pads: seq<Pad>) {
    && |pads| == |keys|
    && (forall i :: 0 <= i < |pads| ==> BlankPad(pads[i]))
    && v == Join(PaddedItems(keys, pads))
  }

  // ----- one item

  lemma SpaceIsNoMark(s: string)
    requires AllSpace(s)
    ensures ',' !in s && ':' !in s
  {
  }

  lemma NotBlank(s: string)
    requires s != "" && !(IsSpace(s[0]) && IsSpace(s[|s| - 1]))
    ensures Trim(s) != ""
  {
    if Trim(s) == "" {
      BlankIsSpace(s);
    }
  }

  lemma CoreReads(k: Key, p: Pad)
    requires GoodKey(k) && AllSpace(p.between)
    ensures Core(k, p) != "" && KeyOf(Core(k, p)) == Ok(k)
  {
    var x, c := k.kid + p.between, Core(k, p);
    SpaceIsNoMark(p.between);
    FirstMark(x, ':', k.secret);
    assert c[..|x|] == x && c[|x| + 1..] == k.secret;
    assert x == "" + k.kid + p.between;
    TrimPadded("", k.kid, p.between);
    NotBlank(k.secret);
  }

  /** A padded good key reads back as that key. */
  lemma ItemReads(k: Key, p: Pad)
    requires GoodKey(k) && BlankPad(p)
    ensures Trim(PaddedItem(k, p)) == Core(k, p) && Core(k, p) != ""
    ensures KeyOf(Core(k, p)) == Ok(k)
    ensures ',' !in PaddedItem(k, p)
  {
    var c := Core(k, p);
    CoreReads(k, p);
    assert c[0] == k.kid[0] && c[|c| - 1] == k.secret[|k.secret| - 1];
    TrimPadded(p.before, c, p.after);
    SpaceIsNoMark(p.before);
    SpaceIsNoMark(p.between);
    SpaceIsNoMark(p.after);
  }

  lemma KidParts(x: string) returns (b: string)
    requires x != "" && !IsSpace(x[0]) && ':' !in x
    ensures AllSpace(b) && x == Trim(x) + b && Trimmed(Trim(x)) && ':' !in Trim(x)
  {
    b := TrimRightParts(x);
    assert Trim(x) == TrimRight(x) && (Trim(x) != "" ==> Trim(x)[0] == x[0]);
    assert "" + Trim(x) + b == x;
    InPart("", Trim(x), b, ':');
  }

  /** An accepted item is its kid, white space, a colon and its secret. */
  lemma ItemParts(item: string) returns (b: string)
    requires Trimmed(item) && KeyOf(item).Ok?
    ensures AllSpace(b)
    ensures var k := KeyOf(item).value;
      && item == k.kid + b + ":" + k.secret
      && k.kid != "" && Trimmed(k.kid) && ':' !in k.kid
      && k.secret != "" && !IsSpace(k.secret[|k.secret| - 1])
  {
    var i := IndexOf(item, ':');
    b := KidParts(item[..i]);
    assert item == item[..i] + ":" + item[i + 1..];
  }

  lemma InPart(x: string, m: string, y: string, c: char)
    requires c !in x + m + y
    ensures c !in m
  {
    assert forall i :: 0 <= i < |m| ==> (x + m + y)[|x| + i] == m[i];
  }

  /** A part whose trimmed text gives a key is that key, padded. */
  lemma ItemWrites(part: string) returns (p: Pad)
    requires ',' !in part && KeyOf(Trim(part)).Ok?
    ensures BlankPad(p) && GoodKey(KeyOf(Trim(part)).value)
    ensures part == PaddedItem(KeyOf(Trim(part)).value, p)
  {
    var k := KeyOf(Trim(part)).value;
    var a, c := TrimParts(part);
    var b := ItemParts(Trim(part));
    p := Pad(a, b, c);
    InPart(a, Trim(part), c, ',');
    assert Trim(part) == "" + k.kid + (b + ":" + k.secret) == (k.kid + b + ":") + k.secret + "";
    InPart("", k.kid, b + ":" + k.secret, ',');
    InPart(k.kid + b + ":", k.secret, "", ',');
  }

  // ----- the list

  predicate FreeOf(keys: seq<Key>, kids: set<string>) {
    forall i :: 0 <= i < |keys| ==> keys[i].kid !in kids
  }

  predicate ReadAs(items: seq<string>, keys: seq<Key>) {
    |keys| == |items| && forall i :: 0 <= i < |items| ==> KeyOf(items[i]) == Ok(keys[i])
  }

  /** Reading items one by one gives exactly their keys, if the kids are new. */
  lemma {:induction false} KeysExact(items: seq<string>, kids: set<string>, keys: seq<Key>)
    ensures Keys(items, kids) == Ok(keys) <==> ReadAs(items, keys) && Distinct(keys) && FreeOf(keys, kids)
    decreases |items|
  {
    if items != [] && keys != [] {
      var kids' := kids + {keys[0].kid};
      KeysExact(items[1..], kids', keys[1..]);
      assert keys == [keys[0]] + keys[1..];
      FirstAndRest(items, kids, keys);
    }
  }

  lemma FirstAndRest(items: seq<string>, kids: set<string>, keys: seq<Key>)
    requires items != [] && keys != []
    ensures ReadAs(items, keys) && Distinct(keys) && FreeOf(keys, kids)
            <==> && KeyOf(items[0]) == Ok(keys[0]) && keys[0].kid !in kids
                 && ReadAs(items[1..], keys[1..]) && Distinct(keys[1..]) && FreeOf(keys[1..], kids + {keys[0].kid})
  {
    var rest := keys[1..];
    assert forall i :: 1 <= i < |keys| ==> keys[i] == rest[i - 1];
    assert forall i :: 1 <= i < |items| ==> items[i] == items[1..][i - 1];
    assert ReadAs(items, keys) ==> ReadAs(items[1..], rest);
    assert FreeOf(keys, kids) ==> FreeOf(rest, kids);
    assert Distinct(keys) ==> Distinct(rest) && FreeOf(rest, {keys[0].kid});
  }

  // ----- the parser

  /** The parser accepts exactly the ways of writing a well-formed list, and
      gives that list. */
  lemma ParseExact(v: string, keys: seq<Key>)
    ensures Parse(v) == Ok(keys) <==> WellFormed(keys) && Writes(v, keys)
  {
    if WellFormed(keys) && Writes(v, keys) {
      var pads :| WrittenWith(v, keys, pads);
      WrittenParses(v, keys, pads);
    }
    if Parse(v) == Ok(keys) {
      ParsedIsWritten(v, keys);
    }
  }

  lemma WrittenParses(v: string, keys: seq<Key>, pads: seq<Pad>)
    requires WellFormed(keys) && WrittenWith(v, keys, pads)
    ensures Parse(v) == Ok(keys)
  {
    var parts := PaddedItems(keys, pads);
    forall i | 0 <= i < |keys|
      ensures ',' !in parts[i] && Trim(parts[i]) != "" && KeyOf(Trim(parts[i])) == Ok(keys[i])
    {
      ItemReads(keys[i], pads[i]);
    }
    JoinParts(parts);
    KeysExact(Trims(parts), {}, keys);
  }

  lemma ParsedIsWritten(v: string, keys: seq<Key>)
    requires Parse(v) == Ok(keys)
    ensures WellFormed(keys) && Writes(v, keys)
  {
    var parts := Split(v);
    SplitParts(v);
    KeysExact(Trims(parts), {}, keys);
    assert forall i :: 0 <= i < |parts| ==> Trims(parts)[i] == Trim(parts[i]);
    var pads := PadsOf(parts, keys);
    PadsMakeParts(parts, keys, pads);
    assert WrittenWith(v, keys, pads);
  }

  lemma PadsMakeParts(parts: seq<string>, keys: seq<Key>, pads: seq<Pad>)
    requires |keys| == |parts| == |pads|
    requires forall i :: 0 <= i < |parts| ==> parts[i] == PaddedItem(keys[i], pads[i])
    ensures PaddedItems(keys, pads) == parts
  {
  }

  lemma {:induction false} PadsOf(parts: seq<string>, keys: seq<Key>) returns (pads: seq<Pad>)
    requires NoCommas(parts) && |keys| == |parts|
    requires forall i :: 0 <= i < |parts| ==> KeyOf(Trim(parts[i])) == Ok(keys[i])
    ensures |pads| == |parts|
    ensures forall i :: 0 <= i < |parts| ==>
              BlankPad(pads[i]) && GoodKey(keys[i]) && parts[i] == PaddedItem(keys[i], pads[i])
  {
    pads := [];
    for n := 0 to |parts|
      invariant |pads| == n
      invariant forall i :: 0 <= i < n ==>
                  BlankPad(pads[i]) && GoodKey(keys[i]) && parts[i] == PaddedItem(keys[i], pads[i])
    {
      var p := ItemWrites(parts[n]);
      pads := pads + [p];
    }
  }

  // ----- printing and parsing

  lemma PrintIsWritten(keys: seq<Key>)
    requires WellFormed(keys)
    ensures Writes(Print(keys), keys)
  {
    var pads := seq(|keys|, _ => Pad("", "", ""));
    forall i | 0 <= i < |keys|
      ensures Printed(keys[i]) == PaddedItem(keys[i], pads[i])
    {
      TrimTrimmed(keys[i].kid);
      assert "" + keys[i].kid == keys[i].kid;
    }
    assert Texts(keys) == PaddedItems(keys, pads);
    assert WrittenWith(Print(keys), keys, pads);
  }

  /** The printed form has no white space before a kid, whatever the kid was. */
  lemma PrintIsTight(keys: seq<Key>, i: nat)
    requires i < |keys| && Trim(keys[i].kid) != ""
    ensures Texts(keys)[i] != "" && !IsSpace(Texts(keys)[i][0])
    ensures i == 0 ==> Print(keys) != "" && !IsSpace(Print(keys)[0])
  {
    var _, _ := TrimParts(keys[i].kid);
    assert Texts(keys)[i][0] == Trim(keys[i].kid)[0];
  }

  /** The round trip returns the list exactly when the list is well formed. */
  lemma PrintParse(keys: seq<Key>)
    ensures Parse(Print(keys)) == Ok(keys) <==> WellFormed(keys)
  {
    ParseExact(Print(keys), keys);
    if WellFormed(keys) {
      PrintIsWritten(keys);
    }
  }

  /** Whatever was accepted can be printed and accepted again, unchanged. */
  lemma ParsePrintParse(v: string)
    requires Parse(v).Ok?
    ensures Parse(Print(Parse(v).value)) == Parse(v)
  {
    ParseExact(v, Parse(v).value);
    PrintParse(Parse(v).value);
  }

  // ----- the error branches

  /** An item of the right shape: something, a colon, something. */
  ghost predicate Shaped(item: string) {
    exists x, y :: ShapedAs(item, x, y)
  }

  predicate ShapedAs(item: string, x: string, y: string) {
    x != "" && y != "" && ':' !in x && item == x + ":" + y
  }

  /** Of the trimmed items exactly those of the right shape are keys. */
  lemma KeyOfExact(part: string)
    requires Trim(part) != ""
    ensures KeyOf(Trim(part)).Ok? <==> Shaped(Trim(part))
  {
    var item := Trim(part);
    var i := IndexOf(item, ':');
    if KeyOf(item).Ok? {
      assert item == item[..i] + ":" + item[i + 1..];
      assert ShapedAs(item, item[..i], item[i + 1..]);
    } else {
      TrimmedItemErrors(part);
      if x, y :| ShapedAs(item, x, y) {
        FirstMark(x, ':', y);
        assert false;
      }
    }
  }

  /** The first item that is at fault, and what is wrong with it. */
  lemma {:induction false} FirstFault(parts: seq<string>, kids: set<string>) returns (n: nat, keys: seq<Key>)
    requires AllFilled(parts) && Keys(Trims(parts), kids).Err?
    ensures n < |parts| && Keys(Trims(parts[..n]), kids) == Ok(keys)
    ensures
      var error := Keys(Trims(parts), kids).error;
      if !Shaped(Trim(parts[n])) then error == BadFormat
      else
        && KeyOf(Trim(parts[n])).Ok? && error == DuplicateKid(KeyOf(Trim(parts[n])).value.kid)
        && (error.kid in kids || exists m :: 0 <= m < |keys| && keys[m].kid == error.kid)
    decreases |parts|
  {
    var items := Trims(parts);
    assert items[1..] == Trims(parts[1..]);
    KeyOfExact(parts[0]);
    var k := KeyOf(items[0]);
    if k.Err? || k.value.kid in kids {
      n, keys := 0, [];
      if k.Err? {
        TrimmedItemErrors(parts[0]);
      }
    } else {
      var n', keys' := FirstFault(parts[1..], kids + {k.value.kid});
      n, keys := n' + 1, [k.value] + keys';
      assert Trims(parts[..n])[1..] == Trims(parts[1..][..n']) && Trims(parts[..n])[0] == items[0];
      assert parts[n] == parts[1..][n'];
      assert forall m :: 1 <= m < |keys| ==> keys[m] == keys'[m - 1];
      assert keys[0].kid == k.value.kid;
      assert forall m :: 0 <= m < |keys'| ==> keys'[m] == keys[m + 1];
    }
  }

  /** Which text gives which error: a blank item if there is one anywhere; or else
      the fault of the first item that has one, a bad shape before a kid that an
      earlier item has taken. */
  lemma ParseErrorExact(v: string) returns (n: nat, keys: seq<Key>)
    requires Parse(v).Err?
    ensures
      var parts, error := Split(v), Parse(v).error;
      if exists i :: 0 <= i < |parts| && AllSpace(parts[i]) then error == EmptyItem
      else
        && n < |parts| && Keys(Trims(parts[..n]), {}) == Ok(keys)
        && if !Shaped(Trim(parts[n])) then error == BadFormat
           else
             && KeyOf(Trim(parts[n])).Ok? && error == DuplicateKid(KeyOf(Trim(parts[n])).value.kid)
             && exists m :: 0 <= m < |keys| && keys[m].kid == error.kid
  {
    var parts := Split(v);
    forall i | 0 <= i < |parts| ensures AllSpace(parts[i]) <==> Trim(parts[i]) == "" {
      BlankExact(parts[i]);
    }
    n, keys := 0, [];
    if AllFilled(parts) {
      KeysExact(Trims(parts), {}, []);
      n, keys := FirstFault(parts, {});
    }
  }

  /** A trimmed item never reaches the checks for an empty kid or secret. */
  lemma TrimmedItemErrors(part: string)
    requires Trim(part) != "" && KeyOf(Trim(part)).Err?
    ensures KeyOf(Trim(part)).error == BadFormat
  {
    var item := Trim(part);
    var i := IndexOf(item, ':');
    var _, _ := TrimParts(part);
    if 0 < i < |item| - 1 {
      assert item[..i][0] == item[0];
      assert item[i + 1..][|item| - i - 2] == item[|item| - 1];
      NotBlank(item[..i]);
      NotBlank(item[i + 1..]);
    }
  }

  lemma {:induction false} KeysErrors(parts: seq<string>, kids: set<string>)
    requires AllFilled(parts) && Keys(Trims(parts), kids).Err?
    ensures var e := Keys(Trims(parts), kids).error; e == BadFormat || e.DuplicateKid?
    decreases |parts|
  {
    assert Trims(parts)[1..] == Trims(parts[1..]);
    var k := KeyOf(Trims(parts)[0]);
    if k.Err? {
      TrimmedItemErrors(parts[0]);
    } else if k.value.kid !in kids {
      KeysErrors(parts[1..], kids + {k.value.kid});
    }
  }

  /** Only three of the parser's six errors can occur. */
  lemma ParseErrors(v: string)
    requires Parse(v).Err?
    ensures Parse(v).error in {EmptyItem, BadFormat} || Parse(v).error.DuplicateKid?
  {
    if AllFilled(Split(v)) {
      if Keys(Trims(Split(v)), {}).Err? {
        KeysErrors(Split(v), {});
      } else {
        KeysExact(Trims(Split(v)), {}, []);
      }
    }
  }
}
