/**
  `cu_mask_parser`: the compute units each GPU queue may use, from a string such as "2:0-3,5;7", which gives
  queue 0 the units 0 to 3 and 5 and queue 1 the unit 7.  A mask word is the set of its bits.
 */
module CuMask {
  import opened Wrappers

  // ---------------------------------------------------------------- strtok_r and atoi

  function SkipDelims(s: string, d: char): (r: string)
    ensures |r| <= |s| && (r != "" ==> r[0] != d)
  {
    if s != "" && s[0] == d then SkipDelims(s[1..], d) else s
  }

  /** The number of characters before the first d. */
  function Until(s: string, d: char): (n: nat)
    ensures n <= |s| && (n < |s| ==> s[n] == d) && forall i :: 0 <= i < n ==> s[i] != d
  {
    if s == "" || s[0] == d then 0 else 1 + Until(s[1..], d)
  }

  /** What a token leaves to be read: everything behind its delimiter. */
  function Behind(s: string, n: nat): string
    requires n <= |s|
  {
    if n < |s| then s[n + 1..] else ""
  }

  /** The non-empty pieces between delimiters. */
  function Tokens(s: string, d: char): seq<string>
    decreases |s|
  {
    var t := SkipDelims(s, d);
    if t == "" then [] else [t[..Until(t, d)]] + Tokens(Behind(t, Until(t, d)), d)
  }

  predicate IsDigit(c: char) {
    '0' <= c <= '9'
  }

  predicate IsSpace(c: char) {
    c == ' ' || '\t' <= c <= '\r'
  }

  function DigitsValue(s: string, acc: nat): nat {
    if s != "" && IsDigit(s[0]) then DigitsValue(s[1..], 10 * acc + (s[0] as nat - '0' as nat)) else acc
  }

  function SkipSpaces(s: string): string {
    if s != "" && IsSpace(s[0]) then SkipSpaces(s[1..]) else s
  }

  /** Leading white space, a sign, and digits up to the first character that is none. */
  function Atoi(s: string): int {
    var t := SkipSpaces(s);
    if t != "" && t[0] == '-' then 0 - DigitsValue(t[1..], 0)
    else if t != "" && t[0] == '+' then DigitsValue(t[1..], 0)
    else DigitsValue(t, 0)
  }

  // ---------------------------------------------------------------- what a string asks for

  /** The units of one item, a number or two with a dash between. */
  function ItemFirst(item: string): int {
    var parts := Tokens(item, '-');
    if |parts| == 0 then 0 else Atoi(parts[0])
  }

  function ItemCount(item: string): int {
    var parts := Tokens(item, '-');
    if |parts| < 2 then 1 else Atoi(parts[1]) - ItemFirst(item) + 1
  }

  /** An item that is a dash and nothing else makes atoi read NULL; a shift by more than 63 is undefined. */
  predicate ItemDefined(item: string) {
    |Tokens(item, '-')| > 0 && (ItemCount(item) > 0 ==> 0 <= ItemFirst(item) && ItemFirst(item) + ItemCount(item) <= 64)
  }

  ghost predicate InItem(item: string, bit: int) {
    ItemFirst(item) <= bit < ItemFirst(item) + ItemCount(item)
  }

  ghost predicate InItems(items: seq<string>, bit: int) {
    exists i :: 0 <= i < |items| && InItem(items[i], bit)
  }

  predicate ListDefined(list: string) {
    forall i :: 0 <= i < |Tokens(list, ',')| ==> ItemDefined(Tokens(list, ',')[i])
  }

  /** The part of the string behind the number of queues. */
  function ListsOf(s: string): seq<string> {
    var t := SkipDelims(s, ':');
    Tokens(Behind(t, Until(t, ':')), ';')
  }

  // ---------------------------------------------------------------- the loops

  /** A token that has been read and those still to come. */
  function Pending(token: Option<string>, rest: string, d: char): seq<string> {
    if token.None? then [] else [token.value] + Tokens(rest, d)
  }

  /** Behind k delimiters the token, up to the next delimiter or the end, and behind that delimiter the rest. */
  ghost predicate TokenAt(s: string, d: char, k: nat, token: string, rest: string) {
    && 0 < |token| <= |s| - k && s[k..k + |token|] == token
    && (forall j :: 0 <= j < k ==> s[j] == d) && (forall j :: 0 <= j < |token| ==> token[j] != d)
    && if k + |token| == |s| then rest == "" else s[k + |token|] == d && rest == s[k + |token| + 1..]
  }

  lemma {:induction false} TokenIs(s: string, d: char) returns (k: nat)
    ensures SkipDelims(s, d) == "" ==> forall j :: 0 <= j < |s| ==> s[j] == d
    ensures var t := SkipDelims(s, d); t != "" ==> TokenAt(s, d, k, t[..Until(t, d)], Behind(t, Until(t, d)))
  {
    if s != "" && s[0] == d {
      var j := TokenIs(s[1..], d);
      k := j + 1;
      var t := SkipDelims(s[1..], d);
      if t != "" { TokenLater(s, d, j, t[..Until(t, d)], Behind(t, Until(t, d))); }
    } else {
      k := 0;
    }
  }

  lemma TokenLater(s: string, d: char, k: nat, token: string, rest: string)
    requires s != "" && s[0] == d && TokenAt(s[1..], d, k, token, rest)
    ensures TokenAt(s, d, k + 1, token, rest)
  {
    assert s[k + 1..k + 1 + |token|] == s[1..][k..k + |token|];
    assert forall j :: 0 < j <= k ==> s[j] == s[1..][j - 1];
    assert k + |token| < |s| - 1 ==> s[1..][k + |token| + 1..] == s[k + 1 + |token| + 1..];
  }

  /** One call of `strtok_r`: the next token, if there is one, and what remains for the next call. */
  method StrtokR(s: string, d: char) returns (token: Option<string>, rest: string)
    ensures token == (if SkipDelims(s, d) == "" then None else Some(SkipDelims(s, d)[..Until(SkipDelims(s, d), d)]))
    ensures rest == Behind(SkipDelims(s, d), Until(SkipDelims(s, d), d))
    ensures Tokens(s, d) == Pending(token, rest, d)
    ensures token.Some? ==> |rest| < |s|
    ensures token.None? ==> forall k :: 0 <= k < |s| ==> s[k] == d
    ensures token.Some? ==> exists k: nat {:trigger TokenAt(s, d, k, token.value, rest)} ::
                              TokenAt(s, d, k, token.value, rest)
  {
    var i := 0;
    while i < |s| && s[i] == d
      invariant i <= |s| && SkipDelims(s[i..], d) == SkipDelims(s, d)
    {
      i := i + 1;
    }
    var t := s[i..];
    var n := 0;
    while n < |t| && t[n] != d
      invariant n <= |t| && Until(t, d) == n + Until(t[n..], d)
    {
      n := n + 1;
    }
    token := if t == "" then None else Some(t[..n]);
    rest := if n < |t| then t[n + 1..] else "";
    ghost var k := TokenIs(s, d);
  }

  class Masks {
    const words: array<set<int>>

    constructor (count: nat)
      ensures words.Length == count && fresh(words) && forall q :: 0 <= q < count ==> words[q] == {}
    {
      words := new set<int>[count](_ => {});
    }

    /** The innermost loop, `cu_masks[qid] |= 1 << offset`. */
    method SetBits(q: nat, first: int, count: int)
      requires q < words.Length
      modifies words
      ensures forall k :: k in words[q] <==> k in old(words[q]) || first <= k < first + count
      ensures forall p :: 0 <= p < words.Length && p != q ==> words[p] == old(words[p])
    {
      var offset, i := first, 0;
      while i < count
        invariant (i == 0 || 0 < i <= count) && offset == first + i
        invariant forall k :: k in words[q] <==> k in old(words[q]) || first <= k < first + i
        invariant forall p :: 0 <= p < words.Length && p != q ==> words[p] == old(words[p])
      {
        words[q] := words[q] + {offset};
        offset, i := offset + 1, i + 1;
      }
    }

    /** One queue's list of items. */
    method ParseList(q: nat, list: string)
      requires q < words.Length && ListDefined(list)
      modifies words
      ensures forall k :: k in words[q] <==> k in old(words[q]) || InItems(Tokens(list, ','), k)
      ensures forall p :: 0 <= p < words.Length && p != q ==> words[p] == old(words[p])
    {
      hide SkipDelims, Until, Behind, Tokens, ItemDefined, InItems;
      ghost var items, n, was := Tokens(list, ','), 0, words[q];
      assert forall k :: !InItems(items[..0], k) by { NoItems(); }
      var item, rest := StrtokR(list, ',');
      while item.Some?
        invariant n <= |items| && items[n..] == Pending(item, rest, ',')
        invariant forall k :: k in words[q] <==> k in was || InItems(items[..n], k)
        invariant forall p :: 0 <= p < words.Length && p != q ==> words[p] == old(words[p])
        decreases |items| - n
      {
        assert items[n] == items[n..][0] == item.value;
        assert items[n + 1..] == items[n..][1..];
        ParseItem(q, item.value);
        ItemsGrow(items, n);
        n := n + 1;
        item, rest := StrtokR(rest, ',');
      }
      assert items[..n] == items;
    }

    /** One item: the number, and how many bits from there on. */
    method ParseItem(q: nat, item: string)
      requires q < words.Length && ItemDefined(item)
      modifies words
      ensures forall k :: k in words[q] <==> k in old(words[q]) || InItem(item, k)
      ensures var parts := Tokens(item, '-');
              |parts| > 0 &&
              forall k :: k in words[q] <==>
                          k in old(words[q]) || Atoi(parts[0]) <= k <= Atoi(parts[if |parts| > 1 then 1 else 0])
      ensures forall p :: 0 <= p < words.Length && p != q ==> words[p] == old(words[p])
    {
      hide SkipDelims, Until, Behind, Tokens, Atoi;
      var first, rest := StrtokR(item, '-');
      var offset := Atoi(first.value);
      var second;
      second, rest := StrtokR(rest, '-');
      var count := if second.Some? then Atoi(second.value) - offset + 1 else 1;
      SetBits(q, offset, count);
    }

    /** The whole parser: the first lists, one a queue, until lists or masks run out; NULL asks for nothing. */
    method CuMaskParser(workers: Option<string>, count: nat) returns (enable: bool)
      requires count <= words.Length
      requires workers.Some? ==>
                 forall q :: 0 <= q < |ListsOf(workers.value)| && q < count ==> ListDefined(ListsOf(workers.value)[q])
      modifies words
      ensures enable == (workers.Some? && |ListsOf(workers.value)| > 0 && count > 0)
      ensures forall q :: 0 <= q < words.Length ==>
                words[q] == if workers.Some? && q < count && q < |ListsOf(workers.value)|
                            then old(words[q]) + ListBits(ListsOf(workers.value)[q]) else old(words[q])
    {
      enable := false;
      if workers.Some? {
        hide SkipDelims, Until, Behind, Tokens, ListBits, ListDefined;
        ghost var lists := ListsOf(workers.value);
        var number, rest := StrtokR(workers.value, ':');
        var q := 0;
        var list;
        list, rest := StrtokR(rest, ';');
        while list.Some? && q < count
          invariant q <= count && q <= |lists| && enable == (q > 0)
          invariant lists[q..] == Pending(list, rest, ';')
          invariant forall p :: 0 <= p < words.Length ==>
                      words[p] == if p < q then old(words[p]) + ListBits(lists[p]) else old(words[p])
        {
          assert lists[q] == lists[q..][0] == list.value;
          assert lists[q + 1..] == lists[q..][1..];
          enable := true;
          ParseList(q, list.value);
          BitsOfList(list.value, old(words[q]), words[q]);
          list, rest := StrtokR(rest, ';');
          q := q + 1;
        }
      }
    }
  }

  /** The bits a list asks for. */
  ghost function ListBits(list: string): set<int> {
    set k | 0 <= k < 64 && InItems(Tokens(list, ','), k)
  }

  lemma NoItems()
    ensures forall k :: !InItems([], k)
  {
  }

  lemma BitsOfList(list: string, before: set<int>, after: set<int>)
    requires ListDefined(list) && forall k :: k in after <==> k in before || InItems(Tokens(list, ','), k)
    ensures after == before + ListBits(list)
  {
    hide Tokens;
    forall k | InItems(Tokens(list, ','), k)
      ensures 0 <= k < 64
    {
      var i :| 0 <= i < |Tokens(list, ',')| && InItem(Tokens(list, ',')[i], k);
      assert ItemDefined(Tokens(list, ',')[i]);
    }
    assert forall k :: k in after <==> k in before + ListBits(list);
  }

  lemma ItemsGrow(items: seq<string>, n: nat)
    requires n < |items|
    ensures forall k :: InItems(items[..n + 1], k) <==> InItems(items[..n], k) || InItem(items[n], k)
  {
    assert items[..n + 1] == items[..n] + [items[n]];
  }

  // ---------------------------------------------------------------- printing

  /** The units from lo to hi. */
  datatype CuRange = CuRange(lo: nat, hi: nat)

  predicate RangeOk(r: CuRange) {
    r.lo <= r.hi < 64
  }

  function DigitChar(d: nat): (c: char)
    requires d < 10
    ensures IsDigit(c) && c as nat - '0' as nat == d
  {
    ('0' as nat + d) as char
  }

  function Digits(n: nat): (s: string)
    ensures |s| > 0 && forall i :: 0 <= i < |s| ==> IsDigit(s[i])
  {
    if n < 10 then [DigitChar(n)] else Digits(n / 10) + [DigitChar(n % 10)]
  }

  function PrintRange(r: CuRange): string {
    if r.lo == r.hi then Digits(r.lo) else Digits(r.lo) + "-" + Digits(r.hi)
  }

  function Join(parts: seq<string>, d: char): string {
    if |parts| == 0 then "" else if |parts| == 1 then parts[0] else parts[0] + [d] + Join(parts[1..], d)
  }

  function PrintItems(ranges: seq<CuRange>): (items: seq<string>)
    ensures |items| == |ranges|
  {
    seq(|ranges|, i requires 0 <= i < |ranges| => PrintRange(ranges[i]))
  }

  function PrintList(ranges: seq<CuRange>): string {
    Join(PrintItems(ranges), ',')
  }

  function PrintLists(queues: seq<seq<CuRange>>): (lists: seq<string>)
    ensures |lists| == |queues|
  {
    seq(|queues|, q requires 0 <= q < |queues| => PrintList(queues[q]))
  }

  /** The number of queues, a colon, and the queues' lists with semicolons between. */
  function Print(queues: seq<seq<CuRange>>): string {
    Digits(|queues|) + ":" + Join(PrintLists(queues), ';')
  }

  // ---------------------------------------------------------------- reading back

  predicate Free(s: string, d: char) {
    forall i :: 0 <= i < |s| ==> s[i] != d
  }

  function NonEmpty(parts: seq<string>): seq<string> {
    if |parts| == 0 then [] else (if parts[0] == "" then [] else [parts[0]]) + NonEmpty(parts[1..])
  }

  lemma {:induction false} UntilIs(s: string, t: string, d: char)
    requires Free(s, d) && (t != "" ==> t[0] == d)
    ensures Until(s + t, d) == |s|
  {
    if s != "" {
      assert (s + t)[1..] == s[1..] + t;
      UntilIs(s[1..], t, d);
    } else {
      assert s + t == t;
    }
  }

  /** A first token, and whatever comes behind its delimiter. */
  lemma {:induction false} TokenThen(s: string, t: string, d: char)
    requires Free(s, d) && s != "" && (t != "" ==> t[0] == d)
    ensures SkipDelims(s + t, d) == s + t && Until(s + t, d) == |s|
    ensures Behind(s + t, |s|) == if t == "" then "" else t[1..]
    ensures Tokens(s + t, d) == [s] + Tokens(if t == "" then "" else t[1..], d)
  {
    assert (s + t)[0] == s[0];
    UntilIs(s, t, d);
    assert (s + t)[..|s|] == s;
    assert t != "" ==> (s + t)[|s| + 1..] == t[1..];
  }

  lemma {:induction false} DelimiterSkipped(s: string, d: char)
    ensures Tokens([d] + s, d) == Tokens(s, d)
  {
    assert ([d] + s)[1..] == s;
    assert SkipDelims([d] + s, d) == SkipDelims(s, d);
  }

  /** Joining and tokenizing loses exactly the empty parts. */
  lemma {:induction false} TokensOfJoin(parts: seq<string>, d: char)
    requires forall i :: 0 <= i < |parts| ==> Free(parts[i], d)
    ensures Tokens(Join(parts, d), d) == NonEmpty(parts)
  {
    hide Tokens;
    if |parts| == 0 {
      NoTokens(d);
    } else if |parts| == 1 {
      NoTokens(d);
      if parts[0] != "" {
        TokenThen(parts[0], "", d);
        assert parts[0] + "" == parts[0];
      }
    } else {
      var rest := Join(parts[1..], d);
      TokensOfJoin(parts[1..], d);
      assert parts[0] + [d] + rest == parts[0] + ([d] + rest);
      assert ([d] + rest)[1..] == rest;
      if parts[0] != "" {
        TokenThen(parts[0], [d] + rest, d);
      } else {
        assert parts[0] + ([d] + rest) == [d] + rest;
        DelimiterSkipped(rest, d);
      }
    }
  }

  lemma {:induction false} NoTokens(d: char)
    ensures Tokens("", d) == []
  {
  }

  lemma {:induction false} DigitsValueIs(s: string, c: char, acc: nat)
    requires (forall i :: 0 <= i < |s| ==> IsDigit(s[i])) && IsDigit(c)
    ensures DigitsValue(s + [c], acc) == 10 * DigitsValue(s, acc) + (c as nat - '0' as nat)
    decreases |s|
  {
    if s != "" {
      assert (s + [c])[1..] == s[1..] + [c];
      DigitsValueIs(s[1..], c, 10 * acc + (s[0] as nat - '0' as nat));
    } else {
      assert s + [c] == [c];
      assert [c][1..] == "";
    }
  }

  lemma {:induction false} DigitsRoundTrip(n: nat)
    ensures DigitsValue(Digits(n), 0) == n
  {
    if n >= 10 {
      DigitsRoundTrip(n / 10);
      DigitsValueIs(Digits(n / 10), DigitChar(n % 10), 0);
    } else {
      assert [DigitChar(n)][1..] == "";
    }
  }

  lemma {:induction false} AtoiRoundTrip(n: nat)
    ensures Atoi(Digits(n)) == n
  {
    DigitsRoundTrip(n);
    hide Digits;
    assert IsDigit(Digits(n)[0]);
    assert SkipSpaces(Digits(n)) == Digits(n);
  }

  lemma {:induction false} SpacesSkipped(spaces: string, s: string)
    requires forall i :: 0 <= i < |spaces| ==> spaces[i] in [' ', '\t', '\n', '\U{0B}', '\U{0C}', '\r']
    requires s != "" ==> s[0] !in [' ', '\t', '\n', '\U{0B}', '\U{0C}', '\r']
    ensures SkipSpaces(spaces + s) == s
  {
    if spaces != "" {
      assert (spaces + s)[1..] == spaces[1..] + s;
      SpacesSkipped(spaces[1..], s);
    } else {
      assert spaces + s == s;
    }
  }

  lemma {:induction false} JunkIgnored(digits: string, junk: string, acc: nat)
    requires forall i :: 0 <= i < |digits| ==> IsDigit(digits[i])
    requires junk != "" ==> !('0' <= junk[0] <= '9')
    ensures DigitsValue(digits + junk, acc) == DigitsValue(digits, acc)
    decreases |digits|
  {
    if digits != "" {
      assert (digits + junk)[1..] == digits[1..] + junk;
      JunkIgnored(digits[1..], junk, 10 * acc + (digits[0] as nat - '0' as nat));
    } else {
      assert digits + junk == junk;
    }
  }

  /** atoi takes white space, a sign and a decimal number, and stops at what is no digit. */
  lemma {:induction false} AtoiReads(spaces: string, sign: string, n: nat, junk: string)
    requires forall i :: 0 <= i < |spaces| ==> spaces[i] in [' ', '\t', '\n', '\U{0B}', '\U{0C}', '\r']
    requires sign in ["", "+", "-"] && (junk != "" ==> !('0' <= junk[0] <= '9'))
    ensures Atoi(spaces + (sign + (Digits(n) + junk))) == if sign == "-" then 0 - n else n
  {
    var body := Digits(n) + junk;
    assert IsDigit(Digits(n)[0]) && body[0] == Digits(n)[0];
    assert (sign + body)[|sign|..] == body && (sign == "" ==> sign + body == body);
    SpacesSkipped(spaces, sign + body);
    JunkIgnored(Digits(n), junk, 0);
    DigitsRoundTrip(n);
    hide SkipSpaces, DigitsValue, Digits;
  }

  lemma {:induction false} ItemRoundTrip(r: CuRange)
    requires RangeOk(r)
    ensures ItemDefined(PrintRange(r)) && forall k :: InItem(PrintRange(r), k) <==> r.lo <= k <= r.hi
  {
    hide Tokens, Atoi, Digits;
    AtoiRoundTrip(r.lo);
    AtoiRoundTrip(r.hi);
    NoTokens('-');
    var a, b := Digits(r.lo), Digits(r.hi);
    assert a + "" == a && b + "" == b;
    TokenThen(b, "", '-');
    if r.lo == r.hi {
      TokenThen(a, "", '-');
    } else {
      assert a + "-" + b == a + ("-" + b);
      assert ("-" + b)[1..] == b;
      TokenThen(a, "-" + b, '-');
    }
  }

  lemma {:induction false} ItemIsFree(r: CuRange, d: char)
    requires d == ',' || d == ';' || d == ':'
    ensures Free(PrintRange(r), d) && PrintRange(r) != ""
  {
    hide Digits;
  }

  lemma {:induction false} NoneEmpty(parts: seq<string>)
    requires forall i :: 0 <= i < |parts| ==> parts[i] != ""
    ensures NonEmpty(parts) == parts
  {
    if |parts| > 0 { NoneEmpty(parts[1..]); }
  }

  lemma {:induction false} JoinIsFree(parts: seq<string>, d: char, c: char)
    requires c != d && forall i :: 0 <= i < |parts| ==> Free(parts[i], c)
    ensures Free(Join(parts, d), c)
  {
    if |parts| > 1 { JoinIsFree(parts[1..], d, c); }
  }

  lemma {:induction false} JoinNotEmpty(parts: seq<string>, d: char)
    requires |parts| > 0 && parts[0] != ""
    ensures Join(parts, d) != ""
  {
  }

  /** One queue's list gives back its ranges. */
  lemma {:induction false} ListRoundTrip(ranges: seq<CuRange>)
    requires forall i :: 0 <= i < |ranges| ==> RangeOk(ranges[i])
    ensures Tokens(PrintList(ranges), ',') == PrintItems(ranges) && ListDefined(PrintList(ranges))
    ensures Free(PrintList(ranges), ';') && (PrintList(ranges) == "" <==> ranges == [])
  {
    hide Tokens, ItemDefined, PrintRange;
    var items := PrintItems(ranges);
    forall i | 0 <= i < |items|
      ensures Free(items[i], ',') && Free(items[i], ';') && items[i] != "" && ItemDefined(items[i])
    {
      ItemIsFree(ranges[i], ',');
      ItemIsFree(ranges[i], ';');
      ItemRoundTrip(ranges[i]);
    }
    TokensOfJoin(items, ',');
    NoneEmpty(items);
    JoinIsFree(items, ',', ';');
    if ranges != [] { JoinNotEmpty(items, ','); }
  }

  ghost predicate InRanges(ranges: seq<CuRange>, bit: int) {
    exists i :: 0 <= i < |ranges| && ranges[i].lo <= bit <= ranges[i].hi
  }

  lemma {:induction false} ListBitsAre(ranges: seq<CuRange>)
    requires forall i :: 0 <= i < |ranges| ==> RangeOk(ranges[i])
    ensures forall k :: k in ListBits(PrintList(ranges)) <==> InRanges(ranges, k)
  {
    ListRoundTrip(ranges);
    hide Tokens, PrintRange, PrintList, InItem;
    var items := PrintItems(ranges);
    forall i | 0 <= i < |items|
      ensures forall k :: InItem(items[i], k) <==> ranges[i].lo <= k <= ranges[i].hi
    {
      ItemRoundTrip(ranges[i]);
    }
    forall k
      ensures k in ListBits(PrintList(ranges)) <==> InRanges(ranges, k)
    {
      if InRanges(ranges, k) {
        var i :| 0 <= i < |ranges| && ranges[i].lo <= k <= ranges[i].hi;
        assert RangeOk(ranges[i]) && InItem(items[i], k);
      }
    }
  }

  /** The queues that have ranges, in order. */
  function Used(queues: seq<seq<CuRange>>): seq<seq<CuRange>> {
    if |queues| == 0 then [] else (if queues[0] == [] then [] else [queues[0]]) + Used(queues[1..])
  }

  ghost predicate QueuesOk(queues: seq<seq<CuRange>>) {
    forall q :: 0 <= q < |queues| ==> forall i :: 0 <= i < |queues[q]| ==> RangeOk(queues[q][i])
  }

  lemma {:induction false} UsedLists(queues: seq<seq<CuRange>>)
    requires QueuesOk(queues)
    ensures NonEmpty(PrintLists(queues)) == PrintLists(Used(queues)) && QueuesOk(Used(queues))
  {
    hide PrintList;
    if |queues| > 0 {
      UsedLists(queues[1..]);
      ListRoundTrip(queues[0]);
      assert queues == [queues[0]] + queues[1..];
      hide PrintLists;
      PrintCons(queues[0], queues[1..]);
      PrintCons(queues[0], Used(queues[1..]));
    }
  }

  lemma {:induction false} PrintCons(queue: seq<CuRange>, queues: seq<seq<CuRange>>)
    ensures PrintLists([queue] + queues) == [PrintList(queue)] + PrintLists(queues)
    ensures NonEmpty([PrintList(queue)] + PrintLists(queues)) ==
            (if PrintList(queue) == "" then [] else [PrintList(queue)]) + NonEmpty(PrintLists(queues))
  {
    hide PrintList;
    assert ([PrintList(queue)] + PrintLists(queues))[1..] == PrintLists(queues);
  }

  /**
    What the parser finds in a printed string: the lists of the queues that have ranges, so that a queue without
    ranges gives its place to the next.
   */
  lemma {:induction false} ListsRoundTrip(queues: seq<seq<CuRange>>)
    requires QueuesOk(queues)
    ensures ListsOf(Print(queues)) == PrintLists(Used(queues)) && QueuesOk(Used(queues))
  {
    hide Tokens, Digits, PrintList, Used;
    var all := Join(PrintLists(queues), ';');
    assert Digits(|queues|) + ":" + all == Digits(|queues|) + (":" + all);
    TokenThen(Digits(|queues|), ":" + all, ':');
    assert (":" + all)[1..] == all;
    forall q | 0 <= q < |queues|
      ensures Free(PrintLists(queues)[q], ';')
    {
      ListRoundTrip(queues[q]);
    }
    TokensOfJoin(PrintLists(queues), ';');
    UsedLists(queues);
  }

  /** A queue without ranges has none with ranges after it. */
  ghost predicate Packed(queues: seq<seq<CuRange>>) {
    forall p, q :: 0 <= p < q < |queues| && queues[p] == [] ==> queues[q] == []
  }

  /** The first n queues have ranges: they keep their places. */
  lemma {:induction false} UsedPrefix(queues: seq<seq<CuRange>>, n: nat)
    requires n <= |queues| && forall p :: 0 <= p < n ==> queues[p] != []
    ensures Used(queues) == queues[..n] + Used(queues[n..])
  {
    if n > 0 {
      assert queues[1..][..n - 1] == queues[1..n] && queues[1..][n - 1..] == queues[n..];
      UsedPrefix(queues[1..], n - 1);
      assert queues[..n] == [queues[0]] + queues[1..n];
    } else {
      assert queues[0..] == queues;
    }
  }

  lemma {:induction false} UsedAreUsed(queues: seq<seq<CuRange>>)
    ensures forall i :: 0 <= i < |Used(queues)| ==> Used(queues)[i] != []
    ensures Used(queues) == [] <==> forall q :: 0 <= q < |queues| ==> queues[q] == []
  {
    if |queues| > 0 {
      UsedAreUsed(queues[1..]);
      assert forall q :: 0 < q < |queues| ==> queues[q] == queues[1..][q - 1];
    }
  }

  /** The string asks for bit k in the mask of queue q. */
  ghost predicate Asks(s: string, q: nat, k: int) {
    q < |ListsOf(s)| && k in ListBits(ListsOf(s)[q])
  }

  lemma {:induction false} AsksIs(queues: seq<seq<CuRange>>, q: nat, k: int)
    requires QueuesOk(queues)
    ensures Asks(Print(queues), q, k) <==> q < |Used(queues)| && InRanges(Used(queues)[q], k)
  {
    ListsRoundTrip(queues);
    hide Used, ListBits, PrintList, ListsOf, Print;
    if q < |Used(queues)| { ListBitsAre(Used(queues)[q]); }
  }

  /** The first queue without ranges, if there is one. */
  lemma {:induction false} FirstEmpty(queues: seq<seq<CuRange>>) returns (n: nat)
    ensures n <= |queues| && (forall p :: 0 <= p < n ==> queues[p] != []) && (n < |queues| ==> queues[n] == [])
  {
    n := 0;
    while n < |queues| && queues[n] != []
      invariant n <= |queues| && forall p :: 0 <= p < n ==> queues[p] != []
    {
      n := n + 1;
    }
  }

  /** Bit k of queue q's mask is asked for exactly when k lies in one of the queue's ranges. */
  ghost predicate PrintsRight(queues: seq<seq<CuRange>>) {
    forall q, k :: 0 <= q < |queues| ==> (Asks(Print(queues), q, k) <==> InRanges(queues[q], k))
  }

  /** Round trip: what is printed is read back right, as long as no queue without ranges comes before one with some. */
  lemma {:induction false} PackedPrintsRight(queues: seq<seq<CuRange>>)
    requires QueuesOk(queues) && Packed(queues)
    ensures PrintsRight(queues)
  {
    var n := FirstEmpty(queues);
    UsedPrefix(queues, n);
    UsedAreUsed(queues[n..]);
    assert forall q :: n <= q < |queues| ==> queues[q] == [];
    assert Used(queues) == queues[..n];
    forall q, k | 0 <= q < |queues|
      ensures Asks(Print(queues), q, k) <==> InRanges(queues[q], k)
    {
      AsksIs(queues, q, k);
    }
  }

  /** Otherwise a list behind the first empty one takes its place, and a bit is asked for that is not meant. */
  lemma {:induction false} UnpackedPrintsWrong(queues: seq<seq<CuRange>>, p: nat, q: nat) returns (n: nat, k: int)
    requires QueuesOk(queues) && p < q < |queues| && queues[p] == [] && queues[q] != []
    ensures n <= p && Asks(Print(queues), n, k) && !InRanges(queues[n], k)
  {
    n := FirstEmpty(queues);
    UsedPrefix(queues, n);
    UsedAreUsed(queues[n..]);
    assert queues[n..][q - n] == queues[q];
    assert Used(queues)[n] == Used(queues[n..])[0];
    var r: CuRange := Used(queues)[n][0];
    k := r.lo;
    ListsRoundTrip(queues);
    assert RangeOk(Used(queues)[n][0]);
    AsksIs(queues, n, k);
  }

  /** The exact condition under which a printed string is read back as meant. */
  lemma {:induction false} PrintsRightIffPacked(queues: seq<seq<CuRange>>)
    requires QueuesOk(queues)
    ensures PrintsRight(queues) <==> Packed(queues)
  {
    if Packed(queues) { PackedPrintsRight(queues); }
    if p, q :| 0 <= p < q < |queues| && queues[p] == [] && queues[q] != [] {
      var n, k := UnpackedPrintsWrong(queues, p, q);
    }
  }

  lemma {:induction false} PrintedIsDefined(queues: seq<seq<CuRange>>, q: nat)
    requires QueuesOk(queues) && q < |ListsOf(Print(queues))|
    ensures ListDefined(ListsOf(Print(queues))[q])
  {
    ListsRoundTrip(queues);
    hide Used, PrintList, ListsOf, Print, ListDefined;
    ListRoundTrip(Used(queues)[q]);
  }

  /** The parser on a printed string: what was printed is added to the first masks, and no other mask is touched. */
  method ReadPrinted(masks: Masks, queues: seq<seq<CuRange>>, count: nat)
    requires QueuesOk(queues) && Packed(queues) && count <= masks.words.Length
    modifies masks.words
    ensures forall q, k :: 0 <= q < masks.words.Length && q < count && q < |queues| ==>
              (k in masks.words[q] <==> k in old(masks.words[q]) || InRanges(queues[q], k))
    ensures forall q :: 0 <= q < masks.words.Length && (q >= count || q >= |queues|) ==>
              masks.words[q] == old(masks.words[q])
  {
    hide Print, ListsOf, ListDefined, ListBits, InRanges, QueuesOk, Packed;
    forall q | 0 <= q < |ListsOf(Print(queues))|
      ensures ListDefined(ListsOf(Print(queues))[q])
    {
      PrintedIsDefined(queues, q);
    }
    PackedPrintsRight(queues);
    NoMoreLists(queues);
    var enable := masks.CuMaskParser(Some(Print(queues)), count);
    assert forall q, k :: 0 <= q < |queues| ==> (Asks(Print(queues), q, k) <==> InRanges(queues[q], k));
  }

  lemma {:induction false} NoMoreLists(queues: seq<seq<CuRange>>)
    requires QueuesOk(queues)
    ensures |ListsOf(Print(queues))| <= |queues|
  {
    ListsRoundTrip(queues);
    UsedIsShorter(queues);
  }

  lemma {:induction false} UsedIsShorter(queues: seq<seq<CuRange>>)
    ensures |Used(queues)| <= |queues|
  {
    if |queues| > 0 { UsedIsShorter(queues[1..]); }
  }

  /** What is printed has the form that the parser was written for. */
  lemma {:induction false} PrintIs()
    ensures Print([[CuRange(0, 3), CuRange(5, 5)], [CuRange(17, 17)]]) == "2:0-3,5;17"
  {
    var a, b := [CuRange(0, 3), CuRange(5, 5)], [CuRange(17, 17)];
    assert Digits(17) == "17" && Digits(2) == "2" && Digits(0) == "0" && Digits(3) == "3" && Digits(5) == "5";
    hide Digits;
    assert PrintRange(a[0]) == "0-3" && PrintRange(a[1]) == "5" && PrintRange(b[0]) == "17";
    assert PrintItems(a) == ["0-3", "5"] && PrintItems(b) == ["17"];
    assert ["0-3", "5"][1..] == ["5"];
    assert PrintList(a) == "0-3,5" && PrintList(b) == "17";
    assert PrintLists([a, b]) == ["0-3,5", "17"];
    assert ["0-3,5", "17"][1..] == ["17"];
    assert Join(["0-3,5", "17"], ';') == "0-3,5;17";
  }

  /** For instance, here unit 3 is meant for queue 1 and goes to queue 0. */
  lemma {:induction false} EmptyQueueShifts()
    ensures var queues := [[], [CuRange(3, 3)]];
            QueuesOk(queues) && Asks(Print(queues), 0, 3) && !InRanges(queues[0], 3)
  {
    var queues := [[], [CuRange(3, 3)]];
    assert queues[1..] == [[CuRange(3, 3)]] && queues[1..][1..] == [];
    assert Used(queues) == [[CuRange(3, 3)]];
    AsksIs(queues, 0, 3);
    assert InRanges([CuRange(3, 3)], 3) by { assert [CuRange(3, 3)][0].lo <= 3; }
  }
}
