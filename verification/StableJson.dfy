/**
  The canonical printer behind query fingerprints: objects are printed with their keys sorted, strings
  as JSON.stringify escapes them (section 7 of RFC 8259, lone surrogates as \u escapes). Two values
  print the same exactly when they are equal up to the order of object keys.
*/
module StableJson {
  import opened Values
  import opened Sorting

  /** A UTF-16 code unit. */
  type Unit = u: int | 0 <= u < 0x10000 witness 0

  type Text = seq<Unit>

  /** A finite number is carried as the text the language prints for it, which tells numbers apart. */
  datatype Json =
    | Null
    | Bool(b: bool)
    | Number(text: Text)
    | Str(s: Text)
    | Arr(items: seq<Json>)
    | Obj(members: seq<(Text, Json)>)

  predicate NumberChar(u: Unit) { 48 <= u <= 57 || u == 43 || u == 45 || u == 46 || u == 101 }

  function Keys(v: Json): seq<Text>
    requires v.Obj?
  {
    seq(|v.members|, i requires 0 <= i < |v.members| => v.members[i].0)
  }

  /** Numbers are non-empty number texts and the keys of an object are distinct. */
  predicate WellFormed(v: Json) {
    match v
    case Number(text) => text != [] && forall i :: 0 <= i < |text| ==> NumberChar(text[i])
    case Arr(items) => forall i :: 0 <= i < |items| ==> WellFormed(items[i])
    case Obj(members) =>
      && (forall i, j :: 0 <= i < j < |members| ==> members[i].0 != members[j].0)
      && (forall i :: 0 <= i < |members| ==> WellFormed(members[i].1))
    case _ => true
  }

  function Find(v: Json, k: Text): (i: nat)
    requires v.Obj? && k in Keys(v)
    ensures i < |v.members| && v.members[i].0 == k
  {
    IndexOf(Keys(v), k)
  }

  function IndexOf(keys: seq<Text>, k: Text): (i: nat)
    requires k in keys
    ensures i < |keys| && keys[i] == k
  {
    if keys[0] == k then 0 else 1 + IndexOf(keys[1..], k)
  }

  // ----- escaping -----

  predicate High(u: Unit) { 0xD800 <= u < 0xDC00 }

  predicate Low(u: Unit) { 0xDC00 <= u < 0xE000 }

  function HexDigit(n: int): (u: Unit)
    requires 0 <= n < 16
  {
    if n < 10 then 48 + n else 87 + n
  }

  function Hex4(u: Unit): Text { [HexDigit(u / 4096), HexDigit(u / 256 % 16), HexDigit(u / 16 % 16), HexDigit(u % 16)] }

  /** The letter after the backslash of a two-character escape. */
  function Short(u: Unit): Option<Unit> {
    if u == 8 then Some(98) else if u == 9 then Some(116) else if u == 10 then Some(110)
    else if u == 12 then Some(102) else if u == 13 then Some(114)
    else if u == 34 then Some(34) else if u == 92 then Some(92) else None
  }

  function EscapeUnit(u: Unit): Text {
    if Short(u).Some? then [92, Short(u).value]
    else if u < 32 || High(u) || Low(u) then [92, 117] + Hex4(u)
    else [u]
  }

  predicate PairAhead(s: Text) { |s| >= 2 && High(s[0]) && Low(s[1]) }

  /** How many units are escaped together, and their text: a surrogate pair stays as it is. */
  function Token(s: Text): (n: nat)
    requires s != []
    ensures n <= |s|
  {
    if PairAhead(s) then 2 else 1
  }

  function TokenText(s: Text): Text
    requires s != []
  {
    if PairAhead(s) then [s[0], s[1]] else EscapeUnit(s[0])
  }

  function Escape(s: Text): Text {
    if s == [] then [] else TokenText(s) + Escape(s[Token(s)..])
  }

  function Quote(s: Text): Text { [34] + Escape(s) + [34] }

  // ----- the printer -----

  const NULL: Text := [110, 117, 108, 108]
  const TRUE: Text := [116, 114, 117, 101]
  const FALSE: Text := [102, 97, 108, 115, 101]

  function KeyOrder(k: Text): seq<int> { k }

  function SortedKeys(v: Json): (keys: seq<Text>)
    requires v.Obj?
    ensures multiset(keys) == multiset(Keys(v)) && forall i :: 0 <= i < |keys| ==> keys[i] in Keys(v)
  {
    SortByCorrect(KeyOrder, Keys(v));
    SameMembers(SortBy(KeyOrder, Keys(v)), Keys(v));
    SortBy(KeyOrder, Keys(v))
  }

  function Stable(v: Json): Text
    decreases v, 1, 0
  {
    match v
    case Null => NULL
    case Bool(b) => if b then TRUE else FALSE
    case Number(text) => text
    case Str(s) => Quote(s)
    case Arr(items) => [91] + StableItems(v, 0) + [93]
    case Obj(members) => [123] + StableMembers(v, SortedKeys(v)) + [125]
  }

  /** The items from position i on, separated by commas. */
  function StableItems(v: Json, i: nat): Text
    requires v.Arr? && i <= |v.items|
    decreases v, 0, |v.items| - i
  {
    if i == |v.items| then []
    else Stable(v.items[i]) + (if i + 1 == |v.items| then [] else [44]) + StableItems(v, i + 1)
  }

  function StableMembers(v: Json, keys: seq<Text>): Text
    requires v.Obj? && forall i :: 0 <= i < |keys| ==> keys[i] in Keys(v)
    decreases v, 0, |keys|
  {
    if keys == [] then []
    else
      Quote(keys[0]) + [58] + Stable(v.members[Find(v, keys[0])].1)
      + (if |keys| == 1 then [] else [44]) + StableMembers(v, keys[1..])
  }

  // ----- equality up to the order of object keys -----

  ghost predicate Equiv(a: Json, b: Json) {
    match a
    case Arr(items) => b.Arr? && |items| == |b.items| && forall i :: 0 <= i < |items| ==> Equiv(items[i], b.items[i])
    case Obj(members) =>
      && b.Obj? && |members| == |b.members|
      && (forall k :: k in Keys(a) <==> k in Keys(b))
      && (forall i :: 0 <= i < |members| && members[i].0 in Keys(b) ==>
            Equiv(members[i].1, b.members[Find(b, members[i].0)].1))
    case _ => a == b
  }

  // ----- strings -----

  lemma HexInjective(a: Unit, b: Unit)
    requires Hex4(a) == Hex4(b)
    ensures a == b
  {
    assert Hex4(a)[0] == Hex4(b)[0] && Hex4(a)[1] == Hex4(b)[1] && Hex4(a)[2] == Hex4(b)[2] && Hex4(a)[3] == Hex4(b)[3];
    HexDigitInjective(a / 4096, b / 4096);
    HexDigitInjective(a / 256 % 16, b / 256 % 16);
    HexDigitInjective(a / 16 % 16, b / 16 % 16);
    HexDigitInjective(a % 16, b % 16);
    Nibbles(a);
    Nibbles(b);
  }

  lemma HexDigitInjective(m: int, n: int)
    requires 0 <= m < 16 && 0 <= n < 16 && HexDigit(m) == HexDigit(n)
    ensures m == n
  {}

  lemma Nibbles(a: Unit)
    ensures a == 4096 * (a / 4096) + 256 * (a / 256 % 16) + 16 * (a / 16 % 16) + a % 16
  {
    assert a / 256 == 16 * (a / 4096) + a / 256 % 16;
    assert a / 16 == 16 * (a / 256) + a / 16 % 16;
  }

  lemma TokenStarts(s: Text)
    requires s != []
    ensures TokenText(s) != [] && TokenText(s)[0] != 34
  {}

  /** The token at the head of a text can be read off it, whatever follows. */
  lemma TokenInjective(s: Text, t: Text, x: Text, y: Text)
    requires s != [] && t != [] && TokenText(s) + x == TokenText(t) + y
    ensures Token(s) == Token(t) && s[..Token(s)] == t[..Token(t)] && x == y
  {
    var a, b := TokenText(s), TokenText(t);
    assert (a + x)[0] == a[0] && (b + y)[0] == b[0];
    if a[0] != 92 {
      assert |a| == |b|;
      SplitEqual(a, x, b, y);
    } else {
      assert (a + x)[1] == a[1] && (b + y)[1] == b[1];
      assert |a| == |b|;
      SplitEqual(a, x, b, y);
      if a[1] == 117 {
        assert a[2..] == Hex4(s[0]) && b[2..] == Hex4(t[0]);
        HexInjective(s[0], t[0]);
      }
    }
  }

  lemma SplitEqual(a: Text, x: Text, b: Text, y: Text)
    requires a + x == b + y && |a| == |b|
    ensures a == b && x == y
  {
    assert a == (a + x)[..|a|] && b == (b + y)[..|b|];
    assert x == (a + x)[|a|..] && y == (b + y)[|b|..];
  }

  lemma Associative(a: Text, b: Text, c: Text)
    ensures (a + b) + c == a + (b + c)
  {}

  /** Escaped strings before their closing quote are prefix-free and injective. */
  lemma {:induction false} EscapeInjective(s: Text, t: Text, x: Text, y: Text)
    requires Escape(s) + ([34] + x) == Escape(t) + ([34] + y)
    ensures s == t && x == y
    decreases |s|
  {
    if s == [] || t == [] {
      EmptyOrNot(s, t, x, y);
    } else {
      var s', t' := s[Token(s)..], t[Token(t)..];
      Associative(TokenText(s), Escape(s'), [34] + x);
      Associative(TokenText(t), Escape(t'), [34] + y);
      TokenInjective(s, t, Escape(s') + ([34] + x), Escape(t') + ([34] + y));
      EscapeInjective(s', t', x, y);
      assert s == s[..Token(s)] + s' && t == t[..Token(t)] + t';
    }
  }

  lemma EscapeStarts(s: Text, x: Text)
    ensures (Escape(s) + ([34] + x))[0] == 34 <==> s == []
  {
    if s != [] { TokenStarts(s); }
  }

  lemma EmptyOrNot(s: Text, t: Text, x: Text, y: Text)
    requires Escape(s) + ([34] + x) == Escape(t) + ([34] + y) && (s == [] || t == [])
    ensures s == t && x == y
  {
    EscapeStarts(s, x);
    EscapeStarts(t, y);
    SplitEqual([], [34] + x, [], [34] + y);
    SplitEqual([34], x, [34], y);
  }

  lemma QuoteInjective(s: Text, t: Text, x: Text, y: Text)
    requires Quote(s) + x == Quote(t) + y
    ensures s == t && x == y
  {
    Associative([34] + Escape(s), [34], x);
    Associative([34], Escape(s), [34] + x);
    Associative([34] + Escape(t), [34], y);
    Associative([34], Escape(t), [34] + y);
    SplitEqual([34], Escape(s) + ([34] + x), [34], Escape(t) + ([34] + y));
    EscapeInjective(s, t, x, y);
  }

  // ----- values that print the same are equal up to key order -----

  /** What can follow a value inside a larger text: nothing, a comma or a closing bracket. */
  predicate Ended(x: Text) { x == [] || x[0] == 44 || x[0] == 93 || x[0] == 125 }

  function Kind(u: Unit): nat {
    if u == 110 then 0 else if u == 116 || u == 102 then 1 else if NumberChar(u) then 2
    else if u == 34 then 3 else if u == 91 then 4 else if u == 123 then 5 else 6
  }

  function KindOf(v: Json): nat {
    match v
    case Null => 0 case Bool(_) => 1 case Number(_) => 2 case Str(_) => 3 case Arr(_) => 4 case Obj(_) => 5
  }

  /** The first unit of a printed value tells its constructor. */
  lemma FirstUnit(v: Json, x: Text)
    requires WellFormed(v)
    ensures Stable(v) != [] && Kind((Stable(v) + x)[0]) == KindOf(v)
  {}

  lemma NumbersEnd(a: Text, b: Text, x: Text, y: Text)
    requires a + x == b + y && Ended(x) && Ended(y)
    requires forall i :: 0 <= i < |a| ==> NumberChar(a[i])
    requires forall i :: 0 <= i < |b| ==> NumberChar(b[i])
    ensures a == b && x == y
  {
    assert forall i :: 0 <= i < |a| ==> (a + x)[i] == a[i];
    assert forall i :: 0 <= i < |b| ==> (b + y)[i] == b[i];
    if x != [] { assert (a + x)[|a|] == x[0]; }
    if y != [] { assert (b + y)[|b|] == y[0]; }
    assert |a| == |b|;
    SplitEqual(a, x, b, y);
  }

  function Separator(last: bool): Text { if last then [] else [44] }

  function AfterItem(v: Json, i: nat, x: Text): Text
    requires v.Arr? && i < |v.items|
  {
    Separator(i + 1 == |v.items|) + (StableItems(v, i + 1) + ([93] + x))
  }

  lemma ItemsUnfold(v: Json, i: nat, x: Text)
    requires v.Arr? && i < |v.items|
    ensures StableItems(v, i) + ([93] + x) == Stable(v.items[i]) + AfterItem(v, i, x)
  {
    var item, sep, rest := Stable(v.items[i]), Separator(i + 1 == |v.items|), StableItems(v, i + 1);
    assert StableItems(v, i) == (item + sep) + rest;
    Associative(item + sep, rest, [93] + x);
    Associative(item, sep, rest + ([93] + x));
  }

  /** After an item comes a comma or the closing bracket, and which of the two says whether it was the last. */
  lemma ItemEnded(v: Json, i: nat, x: Text)
    requires v.Arr? && i < |v.items|
    ensures Ended(AfterItem(v, i, x)) && (AfterItem(v, i, x)[0] == 93 <==> i + 1 == |v.items|)
  {
    if i + 1 == |v.items| { assert AfterItem(v, i, x) == [93] + x; }
  }

  /** Equality of texts gives equality up to key order, and of what follows. */
  lemma {:induction false} StableInjective(a: Json, b: Json, x: Text, y: Text)
    requires WellFormed(a) && WellFormed(b) && Ended(x) && Ended(y)
    requires Stable(a) + x == Stable(b) + y
    ensures Equiv(a, b) && x == y
    decreases a, 1, 0
  {
    FirstUnit(a, x);
    FirstUnit(b, y);
    match a {
      case Null => SplitEqual(NULL, x, NULL, y);
      case Bool(_) =>
        assert (Stable(a) + x)[0] == Stable(a)[0] && (Stable(b) + y)[0] == Stable(b)[0];
        SplitEqual(Stable(a), x, Stable(b), y);
      case Number(text) => NumbersEnd(text, b.text, x, y);
      case Str(s) => QuoteInjective(s, b.s, x, y);
      case Arr(_) =>
        BracketStripped(91, StableItems(a, 0), 93, x, StableItems(b, 0), y);
        ItemsInjective(a, b, 0, x, y);
      case Obj(_) =>
        BracketStripped(123, StableMembers(a, SortedKeys(a)), 125, x, StableMembers(b, SortedKeys(b)), y);
        MembersInjective(a, b, SortedKeys(a), SortedKeys(b), x, y);
        ObjectsEquiv(a, b);
    }
  }

  lemma BracketStripped(opening: Unit, s: Text, closing: Unit, x: Text, t: Text, y: Text)
    requires [opening] + s + [closing] + x == [opening] + t + [closing] + y
    ensures s + ([closing] + x) == t + ([closing] + y)
  {
    assert [opening] + s + [closing] + x == [opening] + (s + ([closing] + x));
    assert [opening] + t + [closing] + y == [opening] + (t + ([closing] + y));
    SplitEqual([opening], s + ([closing] + x), [opening], t + ([closing] + y));
  }

  /** The first of the remaining items on both sides, and what follows it. */
  lemma ItemsStep(a: Json, b: Json, i: nat, x: Text, y: Text)
    requires a.Arr? && b.Arr? && i < |a.items| && i < |b.items|
    requires StableItems(a, i) + ([93] + x) == StableItems(b, i) + ([93] + y)
    ensures Stable(a.items[i]) + AfterItem(a, i, x) == Stable(b.items[i]) + AfterItem(b, i, y)
    ensures Ended(AfterItem(a, i, x)) && Ended(AfterItem(b, i, y))
  {
    ItemsUnfold(a, i, x);
    ItemsUnfold(b, i, y);
    ItemEnded(a, i, x);
    ItemEnded(b, i, y);
  }

  lemma AfterItemsStep(a: Json, b: Json, i: nat, x: Text, y: Text)
    requires a.Arr? && b.Arr? && i < |a.items| && i < |b.items| && AfterItem(a, i, x) == AfterItem(b, i, y)
    ensures StableItems(a, i + 1) + ([93] + x) == StableItems(b, i + 1) + ([93] + y)
  {
    ItemEnded(a, i, x);
    ItemEnded(b, i, y);
    var sep := Separator(i + 1 == |a.items|);
    SplitEqual(sep, StableItems(a, i + 1) + ([93] + x), sep, StableItems(b, i + 1) + ([93] + y));
  }

  lemma ItemsStart(v: Json, i: nat, x: Text)
    requires v.Arr? && WellFormed(v) && i < |v.items|
    ensures (StableItems(v, i) + ([93] + x))[0] != 93
  {
    ItemsUnfold(v, i, x);
    FirstUnit(v.items[i], AfterItem(v, i, x));
  }

  lemma ItemsEnd(a: Json, b: Json, i: nat, x: Text, y: Text)
    requires a.Arr? && b.Arr? && WellFormed(a) && WellFormed(b) && i <= |a.items| && i <= |b.items|
    requires i == |a.items| || i == |b.items|
    requires StableItems(a, i) + ([93] + x) == StableItems(b, i) + ([93] + y)
    ensures |a.items| == |b.items| && x == y
  {
    CloseFirst(StableItems(a, i), 93, x, StableItems(b, i), y);
    if i < |a.items| { ItemsStart(a, i, x); }
    if i < |b.items| { ItemsStart(b, i, y); }
  }

  lemma {:induction false} ItemsInjective(a: Json, b: Json, i: nat, x: Text, y: Text)
    requires a.Arr? && b.Arr? && WellFormed(a) && WellFormed(b) && i <= |a.items| && i <= |b.items|
    requires StableItems(a, i) + ([93] + x) == StableItems(b, i) + ([93] + y)
    ensures |a.items| == |b.items| && x == y && forall j :: i <= j < |a.items| ==> Equiv(a.items[j], b.items[j])
    decreases a, 0, |a.items| - i
  {
    if i < |a.items| && i < |b.items| {
      ItemsStep(a, b, i, x, y);
      StableInjective(a.items[i], b.items[i], AfterItem(a, i, x), AfterItem(b, i, y));
      AfterItemsStep(a, b, i, x, y);
      ItemsInjective(a, b, i + 1, x, y);
    } else {
      ItemsEnd(a, b, i, x, y);
    }
  }

  /** With one list exhausted the text starts with the closing bracket. */
  lemma CloseFirst(s: Text, closing: Unit, x: Text, t: Text, y: Text)
    requires s + ([closing] + x) == t + ([closing] + y)
    ensures (s == [] ==> (t + ([closing] + y))[0] == closing) && (t == [] ==> (s + ([closing] + x))[0] == closing)
    ensures s == [] && t == [] ==> x == y
  {
    assert [] + ([closing] + x) == [closing] + x && [] + ([closing] + y) == [closing] + y;
    if s == [] && t == [] { SplitEqual([closing], x, [closing], y); }
  }

  function Value(v: Json, k: Text): Json
    requires v.Obj? && k in Keys(v)
  {
    v.members[Find(v, k)].1
  }

  function AfterMember(v: Json, keys: seq<Text>, x: Text): Text
    requires v.Obj? && keys != [] && forall i :: 0 <= i < |keys| ==> keys[i] in Keys(v)
  {
    Separator(|keys| == 1) + (StableMembers(v, keys[1..]) + ([125] + x))
  }

  lemma MembersUnfold(v: Json, keys: seq<Text>, x: Text)
    requires v.Obj? && keys != [] && forall i :: 0 <= i < |keys| ==> keys[i] in Keys(v)
    ensures StableMembers(v, keys) + ([125] + x)
            == Quote(keys[0]) + ([58] + (Stable(Value(v, keys[0])) + AfterMember(v, keys, x)))
  {
    var k, item, sep, rest := Quote(keys[0]), Stable(Value(v, keys[0])), Separator(|keys| == 1),
      StableMembers(v, keys[1..]);
    assert StableMembers(v, keys) == (((k + [58]) + item) + sep) + rest;
    Associative(((k + [58]) + item) + sep, rest, [125] + x);
    Associative((k + [58]) + item, sep, rest + ([125] + x));
    Associative(k + [58], item, AfterMember(v, keys, x));
    Associative(k, [58], item + AfterMember(v, keys, x));
  }

  lemma MemberEnded(v: Json, keys: seq<Text>, x: Text)
    requires v.Obj? && keys != [] && forall i :: 0 <= i < |keys| ==> keys[i] in Keys(v)
    ensures Ended(AfterMember(v, keys, x)) && (AfterMember(v, keys, x)[0] == 125 <==> |keys| == 1)
  {
    if |keys| == 1 { assert AfterMember(v, keys, x) == [125] + x; }
  }

  lemma MemberStarts(v: Json, keys: seq<Text>, x: Text)
    requires v.Obj? && keys != [] && forall i :: 0 <= i < |keys| ==> keys[i] in Keys(v)
    ensures (StableMembers(v, keys) + ([125] + x))[0] == 34
  {
    MembersUnfold(v, keys, x);
  }

  ghost predicate SameValues(a: Json, b: Json, keys: seq<Text>) {
    a.Obj? && b.Obj? && forall i :: 0 <= i < |keys| ==>
      keys[i] in Keys(a) && keys[i] in Keys(b) && Equiv(Value(a, keys[i]), Value(b, keys[i]))
  }

  ghost predicate KeysOf(v: Json, keys: seq<Text>) { v.Obj? && forall i :: 0 <= i < |keys| ==> keys[i] in Keys(v) }

  /** The first of the remaining members on both sides, and what follows it. */
  lemma MembersStep(a: Json, b: Json, ka: seq<Text>, kb: seq<Text>, x: Text, y: Text)
    requires KeysOf(a, ka) && KeysOf(b, kb) && ka != [] && kb != []
    requires StableMembers(a, ka) + ([125] + x) == StableMembers(b, kb) + ([125] + y)
    ensures ka[0] == kb[0]
            && Stable(Value(a, ka[0])) + AfterMember(a, ka, x) == Stable(Value(b, kb[0])) + AfterMember(b, kb, y)
    ensures Ended(AfterMember(a, ka, x)) && Ended(AfterMember(b, kb, y))
  {
    MembersUnfold(a, ka, x);
    MembersUnfold(b, kb, y);
    var ta, tb := Stable(Value(a, ka[0])) + AfterMember(a, ka, x), Stable(Value(b, kb[0])) + AfterMember(b, kb, y);
    QuoteInjective(ka[0], kb[0], [58] + ta, [58] + tb);
    SplitEqual([58], ta, [58], tb);
    MemberEnded(a, ka, x);
    MemberEnded(b, kb, y);
  }

  lemma AfterMembersStep(a: Json, b: Json, ka: seq<Text>, kb: seq<Text>, x: Text, y: Text)
    requires KeysOf(a, ka) && KeysOf(b, kb) && ka != [] && kb != [] && AfterMember(a, ka, x) == AfterMember(b, kb, y)
    ensures StableMembers(a, ka[1..]) + ([125] + x) == StableMembers(b, kb[1..]) + ([125] + y)
  {
    MemberEnded(a, ka, x);
    MemberEnded(b, kb, y);
    var sep := Separator(|ka| == 1);
    SplitEqual(sep, StableMembers(a, ka[1..]) + ([125] + x), sep, StableMembers(b, kb[1..]) + ([125] + y));
  }

  lemma MembersEnd(a: Json, b: Json, ka: seq<Text>, kb: seq<Text>, x: Text, y: Text)
    requires KeysOf(a, ka) && KeysOf(b, kb) && (ka == [] || kb == [])
    requires StableMembers(a, ka) + ([125] + x) == StableMembers(b, kb) + ([125] + y)
    ensures ka == kb && x == y
  {
    if ka != [] { MemberStarts(a, ka, x); }
    if kb != [] { MemberStarts(b, kb, y); }
    CloseFirst(StableMembers(a, ka), 125, x, StableMembers(b, kb), y);
  }

  lemma SameValuesCons(a: Json, b: Json, keys: seq<Text>)
    requires keys != [] && KeysOf(a, keys) && KeysOf(b, keys)
    requires Equiv(Value(a, keys[0]), Value(b, keys[0])) && SameValues(a, b, keys[1..])
    ensures SameValues(a, b, keys)
  {
    assert forall i :: 1 <= i < |keys| ==> keys[i] == keys[1..][i - 1];
  }

  lemma {:induction false} MembersInjective(a: Json, b: Json, ka: seq<Text>, kb: seq<Text>, x: Text, y: Text)
    requires WellFormed(a) && WellFormed(b) && KeysOf(a, ka) && KeysOf(b, kb)
    requires StableMembers(a, ka) + ([125] + x) == StableMembers(b, kb) + ([125] + y)
    ensures ka == kb && x == y && SameValues(a, b, ka)
    decreases a, 0, |ka|
  {
    if ka != [] && kb != [] {
      MembersStep(a, b, ka, kb, x, y);
      StableInjective(Value(a, ka[0]), Value(b, kb[0]), AfterMember(a, ka, x), AfterMember(b, kb, y));
      AfterMembersStep(a, b, ka, kb, x, y);
      MembersInjective(a, b, ka[1..], kb[1..], x, y);
      assert ka == [ka[0]] + ka[1..] && kb == [kb[0]] + kb[1..];
      SameValuesCons(a, b, ka);
    } else {
      MembersEnd(a, b, ka, kb, x, y);
    }
  }

  /** With distinct keys, a key is found at its own position. */
  lemma FindsOwn(v: Json, i: nat)
    requires v.Obj? && WellFormed(v) && i < |v.members|
    ensures v.members[i].0 in Keys(v) && Find(v, v.members[i].0) == i
  {
    assert Keys(v)[i] == v.members[i].0;
  }

  lemma ObjectsEquiv(a: Json, b: Json)
    requires a.Obj? && b.Obj? && WellFormed(a) && WellFormed(b)
    requires SortedKeys(a) == SortedKeys(b) && SameValues(a, b, SortedKeys(a))
    ensures Equiv(a, b)
  {
    var keys := SortedKeys(a);
    SameMembers(keys, Keys(a));
    SameMembers(keys, Keys(b));
    assert |multiset(Keys(a))| == |multiset(Keys(b))|;
    forall i | 0 <= i < |a.members| && a.members[i].0 in Keys(b)
      ensures Equiv(a.members[i].1, b.members[Find(b, a.members[i].0)].1)
    {
      FindsOwn(a, i);
      assert a.members[i].0 in keys;
    }
  }

  // ----- values equal up to key order print the same -----

  lemma {:induction false} EquivPrintsSame(a: Json, b: Json)
    requires WellFormed(a) && WellFormed(b) && Equiv(a, b)
    ensures Stable(a) == Stable(b)
    decreases a, 1, 0
  {
    match a {
      case Arr(_) => EquivItems(a, b, 0);
      case Obj(_) =>
        SameSortedKeys(a, b);
        EquivMembers(a, b, SortedKeys(a));
      case _ =>
    }
  }

  lemma {:induction false} EquivItems(a: Json, b: Json, i: nat)
    requires a.Arr? && b.Arr? && WellFormed(a) && WellFormed(b) && Equiv(a, b) && i <= |a.items|
    ensures StableItems(a, i) == StableItems(b, i)
    decreases a, 0, |a.items| - i
  {
    if i < |a.items| {
      EquivPrintsSame(a.items[i], b.items[i]);
      EquivItems(a, b, i + 1);
    }
  }

  lemma {:induction false} EquivMembers(a: Json, b: Json, keys: seq<Text>)
    requires a.Obj? && b.Obj? && WellFormed(a) && WellFormed(b) && Equiv(a, b)
    requires forall i :: 0 <= i < |keys| ==> keys[i] in Keys(a) && keys[i] in Keys(b)
    ensures StableMembers(a, keys) == StableMembers(b, keys)
    decreases a, 0, |keys|
  {
    if keys != [] {
      var i := Find(a, keys[0]);
      assert a.members[i].0 == keys[0];
      EquivPrintsSame(a.members[i].1, b.members[Find(b, keys[0])].1);
      EquivMembers(a, b, keys[1..]);
    }
  }

  lemma SameSortedKeys(a: Json, b: Json)
    requires a.Obj? && b.Obj? && WellFormed(a) && WellFormed(b) && Equiv(a, b)
    ensures SortedKeys(a) == SortedKeys(b)
  {
    forall k ensures multiset(Keys(a))[k] == multiset(Keys(b))[k] {
      OnceEach(Keys(a), k);
      OnceEach(Keys(b), k);
    }
    assert multiset(Keys(a)) == multiset(Keys(b));
    SortByPermutation(KeyOrder, Keys(a), Keys(b));
  }

  lemma {:induction false} OnceEach(s: seq<Text>, k: Text)
    requires forall i, j :: 0 <= i < j < |s| ==> s[i] != s[j]
    ensures multiset(s)[k] == if k in s then 1 else 0
  {
    if s != [] {
      OnceEach(s[1..], k);
      assert s == [s[0]] + s[1..];
    }
  }

  /**
    The printer is canonical: two values have the same text if and only if they are equal up to the
    order of object keys.
  */
  lemma StableIsCanonical(a: Json, b: Json)
    requires WellFormed(a) && WellFormed(b)
    ensures Stable(a) == Stable(b) <==> Equiv(a, b)
  {
    if Stable(a) == Stable(b) {
      assert Stable(a) + [] == Stable(b) + [];
      StableInjective(a, b, [], []);
    }
    if Equiv(a, b) { EquivPrintsSame(a, b); }
  }
}
