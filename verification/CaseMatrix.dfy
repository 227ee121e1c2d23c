/**
 The case matrix of a sweep over integer axes: row-major product, every combination once, and case ids that tell the
 cases apart even when two axes got the same alias.
 */
module CaseMatrix {
  import opened Arith

  /******* Strings *******/

  // key.split(c)[-1]
  function AfterLast(s: string, c: char): string {
    if s == "" || s[|s| - 1] == c then "" else AfterLast(s[..|s| - 1], c) + [s[|s| - 1]]
  }

  // What stands before the last c
  function BeforeLast(s: string, c: char): string {
    if s == "" then "" else if s[|s| - 1] == c then s[..|s| - 1] else BeforeLast(s[..|s| - 1], c)
  }

  function Lower(s: string): string {
    if s == "" then "" else Lower(s[..|s| - 1]) + [LowerChar(s[|s| - 1])]
  }

  function LowerChar(c: char): char { if 'A' <= c <= 'Z' then c - 'A' + 'a' else c }

  // Letter by letter, the capitals made small
  lemma {:induction false} LowerAt(s: string)
    ensures |Lower(s)| == |s|
    ensures forall i :: 0 <= i < |s| ==> Lower(s)[i] as int == s[i] as int + (if 'A' <= s[i] <= 'Z' then 32 else 0)
  {
    if s != "" { LowerAt(s[..|s| - 1]); }
  }

  // One character more: a separator begins a new part, any other extends the last one.
  ghost function PushChar(parts: seq<string>, x: char, c: char): (r: seq<string>)
    requires parts != []
    ensures r != []
  {
    var n := |parts| - 1;
    if x == c then parts + [""] else parts[..n] + [parts[n] + [x]]
  }

  // s.split(c)
  ghost function Split(s: string, c: char): (parts: seq<string>)
    ensures parts != []
  {
    if s == "" then [""] else PushChar(Split(s[..|s| - 1], c), s[|s| - 1], c)
  }

  // c.join(parts)
  ghost function Join(parts: seq<string>, c: char): string {
    if parts == [] then ""
    else if |parts| == 1 then parts[0]
    else Join(parts[..|parts| - 1], c) + [c] + parts[|parts| - 1]
  }

  ghost predicate Without(parts: seq<string>, c: char) { forall i :: 0 <= i < |parts| ==> c !in parts[i] }

  lemma JoinPush(parts: seq<string>, last: string, c: char)
    ensures parts != [] ==> Join(parts + [last], c) == Join(parts, c) + [c] + last
    ensures parts == [] ==> Join(parts + [last], c) == last
  {
    assert (parts + [last])[..|parts|] == parts;
  }

  lemma PushJoins(parts: seq<string>, x: char, c: char)
    requires parts != []
    ensures Join(PushChar(parts, x, c), c) == Join(parts, c) + [x]
    ensures Without(parts, c) ==> Without(PushChar(parts, x, c), c)
  {
    hide Join;
    var n := |parts| - 1;
    assert parts == parts[..n] + [parts[n]];
    JoinPush(parts[..n], parts[n], c);
    if x == c { JoinPush(parts, "", c); } else { JoinPush(parts[..n], parts[n] + [x], c); }
  }

  lemma {:induction false} SplitJoins(s: string, c: char)
    ensures Join(Split(s, c), c) == s && Without(Split(s, c), c)
  {
    if s != "" {
      SplitJoins(s[..|s| - 1], c);
      hide Join, PushChar, Without;
      PushJoins(Split(s[..|s| - 1], c), s[|s| - 1], c);
      assert s == s[..|s| - 1] + [s[|s| - 1]];
    }
  }

  lemma SplitPush(s: string, x: char, c: char)
    ensures Split(s + [x], c) == PushChar(Split(s, c), x, c)
  {
    hide PushChar;
    assert (s + [x])[..|s|] == s;
  }

  // The last character of a string in parts
  lemma Popped(parts: seq<string>, c: char) returns (first: seq<string>, x: char)
    requires parts != [] && parts != [""] && Without(parts, c)
    ensures first != [] && Without(first, c) && PushChar(first, x, c) == parts
  {
    var n := |parts| - 1;
    assert parts == parts[..n] + [parts[n]];
    if parts[n] == "" {
      first, x := parts[..n], c;
    } else {
      var m := |parts[n]| - 1;
      first, x := parts[..n] + [parts[n][..m]], parts[n][m];
      assert parts[n] == parts[n][..m] + [x] && first[..n] == parts[..n];
    }
  }

  lemma {:induction false} JoinSplits(parts: seq<string>, c: char)
    requires parts != [] && Without(parts, c)
    ensures Split(Join(parts, c), c) == parts
    decreases |Join(parts, c)|
  {
    if parts != [""] {
      hide PushChar, Without, Join, Split;
      var first, x := Popped(parts, c);
      PushJoins(first, x, c);
      JoinSplits(first, c);
      SplitPush(Join(first, c), x, c);
    }
  }

  // The parts of a string are those without a separator that join to it.
  lemma SplitIff(s: string, c: char, parts: seq<string>)
    ensures parts == Split(s, c) <==> parts != [] && Join(parts, c) == s && forall p <- parts :: c !in p
  {
    SplitJoins(s, c);
    if parts != [] && Join(parts, c) == s && forall p <- parts :: c !in p { JoinSplits(parts, c); }
  }

  lemma {:induction false} LastPart(s: string, c: char)
    ensures AfterLast(s, c) == Split(s, c)[|Split(s, c)| - 1] && (c in s <==> |Split(s, c)| > 1)
    ensures c in s ==> Split(BeforeLast(s, c), c) == Split(s, c)[..|Split(s, c)| - 1]
  {
    if s != "" {
      LastPart(s[..|s| - 1], c);
      assert c in s <==> c in s[..|s| - 1] || c == s[|s| - 1];
    }
  }

  function NatString(n: nat): (s: string)
    ensures |s| > 0 && forall i :: 0 <= i < |s| ==> '0' <= s[i] <= '9'
  {
    if n < 10 then ['0' + n as char] else NatString(n / 10) + ['0' + (n % 10) as char]
  }

  // _fmt_value of an int: str(v) with '-' replaced by 'm'
  function FormatValue(v: int): string { if v < 0 then "m" + NatString(-v) else NatString(v) }

  lemma {:induction false} NatStringInjective(m: nat, n: nat)
    requires NatString(m) == NatString(n)
    ensures m == n
  {
    var s, t := NatString(m), NatString(n);
    assert s[|s| - 1] == t[|t| - 1];
    assert m % 10 == n % 10;
    assert (m >= 10 <==> |s| > 1) && (n >= 10 <==> |t| > 1);
    if m >= 10 {
      assert s[..|s| - 1] == t[..|t| - 1];
      NatStringInjective(m / 10, n / 10);
    }
  }

  // int(s)
  ghost function Number(s: string): nat
    requires forall i :: 0 <= i < |s| ==> '0' <= s[i] <= '9'
  {
    if s == "" then 0 else Number(s[..|s| - 1]) * 10 + (s[|s| - 1] - '0') as int
  }

  lemma {:induction false} NatStringReads(n: nat)
    ensures Number(NatString(n)) == n && (NatString(n)[0] == '0' ==> |NatString(n)| == 1)
  {
    if n >= 10 {
      NatStringReads(n / 10);
      assert NatString(n)[..|NatString(n)| - 1] == NatString(n / 10);
      assert Number(NatString(n / 10)) != 0;
      assert NatString(n)[0] == NatString(n / 10)[0];
    }
  }

  // The decimal digits without leading zeros, after an m for a negative value
  lemma FormatReads(v: int)
    ensures var s := FormatValue(v);
      && s != "" && (v < 0 <==> s[0] == 'm')
      && var digits := if v < 0 then s[1..] else s;
      && (forall i :: 0 <= i < |digits| ==> '0' <= digits[i] <= '9') && Number(digits) == (if v < 0 then -v else v)
      && digits != "" && (digits[0] == '0' ==> v == 0)
  {
    SignShows(v);
    NatStringReads(if v < 0 then -v else v);
    if v < 0 { assert FormatValue(v)[1..] == NatString(-v); }
  }

  lemma SignShows(v: int)
    ensures |FormatValue(v)| > 0 && (v < 0 <==> FormatValue(v)[0] == 'm')
  {
    if v >= 0 { assert NatString(v)[0] in NatString(v); }
  }

  lemma FormatInjective(v: int, w: int)
    requires FormatValue(v) == FormatValue(w)
    ensures v == w
  {
    SignShows(v);
    SignShows(w);
    if v < 0 {
      assert FormatValue(v)[1..] == NatString(-v) && FormatValue(w)[1..] == NatString(-w);
      NatStringInjective(-v, -w);
    } else {
      NatStringInjective(v, w);
    }
  }

  /******* short_names *******/

  const UNIT_TOKENS: set<string> := {"whkg", "nm", "kg", "km", "kw", "kwh", "hr", "h", "s", "m", "mb", "pct"}

  // The last word of the last dotted segment, without a unit
  function AxisWord(key: string): string {
    var segment := AfterLast(key, '.');
    var last := AfterLast(segment, '_');
    Lower(if '_' in segment && Lower(last) in UNIT_TOKENS then AfterLast(BeforeLast(segment, '_'), '_') else last)
  }

  // In the parts of the key: the last but one, when the last is a unit and not alone, else the last
  lemma AxisWordIs(key: string)
    ensures var segments := Split(key, '.');
      var words := Split(segments[|segments| - 1], '_');
      var last := words[|words| - 1];
      AxisWord(key) == Lower(if |words| > 1 && Lower(last) in UNIT_TOKENS then words[|words| - 2] else last)
  {
    LastPart(key, '.');
    var segment := AfterLast(key, '.');
    LastPart(segment, '_');
    LastPart(BeforeLast(segment, '_'), '_');
  }

  // A unit after the last underscore is dropped, any other word there is the word.
  lemma UnitDropped(head: string, stem: string, word: string, unit: string, segment: string)
    requires head == "" || head[|head| - 1] == '.'
    requires stem == "" || stem[|stem| - 1] == '_'
    requires segment == stem + word + ['_'] + unit && '.' !in segment && '_' !in word && '_' !in unit
    ensures AxisWord(head + segment) == Lower(
      if Lower(unit) in {"whkg", "kwh", "kw", "kg", "nm", "km", "m", "hr", "h", "s", "mb", "pct"} then word else unit)
  {
    hide Lower, AfterLast, BeforeLast;
    Ends(head, segment, '.');
    Ends(stem + word + ['_'], unit, '_');
    Ends(stem, word, '_');
    Starts(stem + word, unit, '_');
    assert segment[|stem + word|] == '_';
  }

  // A last segment without underscores is the word, even a unit.
  lemma LoneWord(head: string, word: string)
    requires head == "" || head[|head| - 1] == '.'
    requires '.' !in word && '_' !in word
    ensures AxisWord(head + word) == Lower(word)
  {
    hide Lower;
    Ends(head, word, '.');
    Ends("", word, '_');
    assert "" + word == word;
  }

  lemma {:induction false} Ends(head: string, word: string, c: char)
    requires (head == "" || head[|head| - 1] == c) && c !in word
    ensures AfterLast(head + word, c) == word
  {
    if word == "" {
      assert head + word == head;
    } else {
      var n := |word| - 1;
      assert (head + word)[..|head + word| - 1] == head + word[..n];
      Ends(head, word[..n], c);
    }
  }

  lemma {:induction false} Starts(head: string, word: string, c: char)
    requires c !in word
    ensures BeforeLast(head + [c] + word, c) == head
  {
    if word == "" {
      assert head + [c] + word == head + [c];
    } else {
      var n := |word| - 1;
      assert (head + [c] + word)[..|head + [c] + word| - 1] == head + [c] + word[..n];
      Starts(head, word[..n], c);
    }
  }

  lemma {:induction false} Lowered(word: string)
    requires forall i :: 0 <= i < |word| ==> LowerChar(word[i]) == word[i]
    ensures Lower(word) == word
  {
    if word != "" { Lowered(word[..|word| - 1]); }
  }

  // The shortest prefix of the word, from n letters on, that is not taken; else the word with its index
  function FreePrefix(word: string, n: nat, i: nat, taken: set<string>): string
    decreases |word| - n
  {
    if n > |word| then word + NatString(i)
    else if word[..n] !in taken then word[..n]
    else FreePrefix(word, n + 1, i, taken)
  }

  function Alias(key: string, i: nat, taken: set<string>): string { FreePrefix(AxisWord(key), 1, i, taken) }

  // The dict short_names fills, key by key
  function Aliases(keys: seq<string>): map<string, string> {
    if keys == [] then map[]
    else
      var n := |keys| - 1;
      var before := Aliases(keys[..n]);
      before[keys[n] := Alias(keys[n], n, before.Values)]
  }

  predicate AllTaken(word: string, taken: set<string>) { forall n :: 1 <= n <= |word| ==> word[..n] in taken }

  // What an alias is: the shortest prefix of the word that no earlier key has, or, when all are taken, the word with its index
  ghost predicate IsAlias(alias: string, word: string, i: nat, taken: set<string>) {
    || (AllTaken(word, taken) && alias == word + NatString(i))
    || exists n :: 1 <= n <= |word| && alias == word[..n] && alias !in taken && forall m :: 1 <= m < n ==> word[..m] in taken
  }

  function Elements(s: seq<string>): set<string> { set a | a in s }

  // The aliases, key by key, each made from its word and the aliases of the keys before it
  ghost predicate Named(keys: seq<string>, aliases: seq<string>) {
    |aliases| == |keys| && forall i :: 0 <= i < |keys| ==> IsAlias(aliases[i], AxisWord(keys[i]), i, Elements(aliases[..i]))
  }

  // The keys of a dict are distinct.
  method ShortNames(keys: seq<string>) returns (shorts: map<string, string>)
    ensures shorts == Aliases(keys) && forall k <- keys :: k in shorts
    ensures DistinctKeys(keys) ==> Named(keys, AliasList(keys, shorts))
  {
    shorts := map[];
    for i := 0 to |keys|
      invariant shorts == Aliases(keys[..i])
    {
      assert keys[..i + 1][..i] == keys[..i];
      shorts := shorts[keys[i] := Alias(keys[i], i, shorts.Values)];
    }
    assert keys[..|keys|] == keys;
    AliasesKeys(keys);
    if DistinctKeys(keys) { AliasesAreNames(keys); }
  }

  lemma {:induction false} AliasesKeys(keys: seq<string>)
    ensures Aliases(keys).Keys == set k | k in keys
  {
    if keys != [] {
      AliasesKeys(keys[..|keys| - 1]);
      assert keys == keys[..|keys| - 1] + [keys[|keys| - 1]];
    }
  }

  // An alias collides with an earlier one exactly when every prefix of its word was taken and so was word + index.
  lemma {:induction false} CollidesWhen(word: string, n: nat, i: nat, taken: set<string>)
    requires n >= 1 && forall k :: 1 <= k < n && k <= |word| ==> word[..k] in taken
    ensures FreePrefix(word, n, i, taken) in taken <==> AllTaken(word, taken) && word + NatString(i) in taken
    ensures IsAlias(FreePrefix(word, n, i, taken), word, i, taken)
    decreases |word| - n
  {
    if n <= |word| && word[..n] in taken {
      CollidesWhen(word, n + 1, i, taken);
    }
  }

  // One key more: its alias is added at the end.
  lemma OneMoreAlias(before: seq<string>, key: string, shorts: map<string, string>, alias: string)
    requires (forall k <- before :: k in shorts) && key !in before
    ensures forall k <- before + [key] :: k in shorts[key := alias]
    ensures AliasList(before + [key], shorts[key := alias]) == AliasList(before, shorts) + [alias]
  {}

  lemma ValuesAreElements(keys: seq<string>, shorts: map<string, string>)
    requires shorts.Keys == set k | k in keys
    ensures shorts.Values == Elements(AliasList(keys, shorts))
  {
    var list := AliasList(keys, shorts);
    forall v ensures v in shorts.Values <==> v in Elements(list) {
      if v in shorts.Values {
        var k :| k in shorts && shorts[k] == v;
        assert k in shorts.Keys;
        var i :| 0 <= i < |keys| && keys[i] == k;
        assert list[i] == v;
      }
      if v in Elements(list) {
        var i :| 0 <= i < |list| && list[i] == v;
        assert keys[i] in shorts && shorts[keys[i]] == v;
      }
    }
  }

  lemma {:induction false} AliasesAreNames(keys: seq<string>)
    requires DistinctKeys(keys)
    ensures (forall k <- keys :: k in Aliases(keys)) && Named(keys, AliasList(keys, Aliases(keys)))
  {
    AliasesKeys(keys);
    if keys != [] {
      var n := |keys| - 1;
      var before := keys[..n];
      AliasesAreNames(before);
      AliasesKeys(before);
      assert keys == before + [keys[n]];
      OneMoreAlias(before, keys[n], Aliases(before), Alias(keys[n], n, Aliases(before).Values));
      ValuesAreElements(before, Aliases(before));
      CollidesWhen(AxisWord(keys[n]), 1, n, Aliases(before).Values);
      NamedPush(keys, AliasList(before, Aliases(before)), Alias(keys[n], n, Aliases(before).Values));
    }
  }

  lemma NamedPush(keys: seq<string>, aliases: seq<string>, alias: string)
    requires keys != [] && Named(keys[..|keys| - 1], aliases)
    requires IsAlias(alias, AxisWord(keys[|keys| - 1]), |keys| - 1, Elements(aliases))
    ensures Named(keys, aliases + [alias])
  {
    var all := aliases + [alias];
    hide AxisWord, NatString, Elements;
    forall i | 0 <= i < |keys| ensures IsAlias(all[i], AxisWord(keys[i]), i, Elements(all[..i])) {
      if i < |keys| - 1 {
        assert all[..i] == aliases[..i] && keys[..|keys| - 1][i] == keys[i];
        assert IsAlias(aliases[i], AxisWord(keys[..|keys| - 1][i]), i, Elements(aliases[..i]));
      } else {
        assert all[..i] == aliases;
      }
    }
  }

  // The i-th key finds every prefix of its word taken, and its word with the index too.
  ghost predicate Collides(keys: seq<string>, aliases: seq<string>, i: nat)
    requires i < |keys| == |aliases|
  {
    var word, taken := AxisWord(keys[i]), Elements(aliases[..i]);
    AllTaken(word, taken) && word + NatString(i) in taken
  }

  predicate DistinctAliases(aliases: seq<string>) { forall i, n :: 0 <= i < n < |aliases| ==> aliases[i] != aliases[n] }

  lemma CollidesIff(keys: seq<string>, aliases: seq<string>, n: nat)
    requires Named(keys, aliases) && n < |keys|
    ensures Collides(keys, aliases, n) <==> aliases[n] in Elements(aliases[..n])
  {
    var word, taken := AxisWord(keys[n]), Elements(aliases[..n]);
    hide AxisWord, NatString, Elements;
    assert IsAlias(aliases[n], word, n, taken);
  }

  // The aliases are pairwise different exactly if no key collides with those before it.
  lemma AliasesDifferIff(keys: seq<string>)
    requires DistinctKeys(keys)
    ensures forall k <- keys :: k in Aliases(keys)
    ensures var aliases := AliasList(keys, Aliases(keys));
      DistinctAliases(aliases) <==> forall n :: 0 <= n < |keys| ==> !Collides(keys, aliases, n)
  {
    hide Aliases, NatString, AxisWord, Collides, Named, DistinctAliases, Elements;
    AliasesAreNames(keys);
    var aliases := AliasList(keys, Aliases(keys));
    forall n | 0 <= n < |keys|
      ensures Collides(keys, aliases, n) <==> aliases[n] in Elements(aliases[..n])
    {
      CollidesIff(keys, aliases, n);
    }
    DistinctIff(aliases);
  }

  lemma DistinctIff(aliases: seq<string>)
    ensures DistinctAliases(aliases) <==> forall n :: 0 <= n < |aliases| ==> aliases[n] !in Elements(aliases[..n])
  {
    forall n | 0 <= n < |aliases| && aliases[n] in Elements(aliases[..n]) ensures !DistinctAliases(aliases) {
      var i :| 0 <= i < n && aliases[..n][i] == aliases[n];
      assert aliases[i] == aliases[n];
    }
    forall i, n | 0 <= i < n < |aliases| && aliases[i] == aliases[n] ensures aliases[n] in Elements(aliases[..n]) {
      assert aliases[..n][i] == aliases[n];
    }
  }

  // Axes named a.r, b.r2 and c.r: the first takes r, the second r2, and the third falls back to r with its index, 2.
  lemma AliasesCollide()
    ensures DistinctKeys(["a.r", "b.r2", "c.r"])
    ensures var shorts := Aliases(["a.r", "b.r2", "c.r"]);
      "a.r" in shorts && "b.r2" in shorts && "c.r" in shorts && shorts["a.r"] == "r" && shorts["b.r2"] == shorts["c.r"] == "r2"
  {
    hide Aliases, Alias;
    ShortAliases();
    var none: map<string, string> := map[];
    var one := none["a.r" := "r"];
    Values(one, one["b.r2" := "r2"]);
    assert none.Values == {};
    Extend([], "a.r", none, ["a.r"]);
    assert Aliases(["a.r"]) == one;
    Extend(["a.r"], "b.r2", one, ["a.r", "b.r2"]);
    assert Aliases(["a.r", "b.r2"]) == one["b.r2" := "r2"];
    Extend(["a.r", "b.r2"], "c.r", one["b.r2" := "r2"], ["a.r", "b.r2", "c.r"]);
  }

  lemma Values(one: map<string, string>, two: map<string, string>)
    requires one == map["a.r" := "r"] && two == one["b.r2" := "r2"]
    ensures one.Values == {"r"} && two.Values == {"r", "r2"}
  {
    assert one["a.r"] == "r" && two["a.r"] == "r" && two["b.r2"] == "r2";
  }

  lemma Extend(keys: seq<string>, key: string, shorts: map<string, string>, more: seq<string>)
    requires more == keys + [key]
    ensures Aliases(keys) == shorts ==> Aliases(more) == shorts[key := Alias(key, |keys|, shorts.Values)]
    ensures Aliases([]) == map[]
  {
    assert (keys + [key])[..|keys|] == keys;
  }

  lemma ShortAliases()
    ensures Alias("a.r", 0, {}) == "r" && Alias("b.r2", 1, {"r"}) == "r2" && Alias("c.r", 2, {"r", "r2"}) == "r2"
  {
    Words();
    hide AxisWord;
    assert "r"[..1] == "r" && "r2"[..1] == "r" && "r2"[..2] == "r2";
    assert FreePrefix("r2", 2, 1, {"r"}) == "r2";
    assert NatString(2) == "2" && "r" + "2" == "r2";
    assert FreePrefix("r", 2, 2, {"r", "r2"}) == "r2";
  }

  lemma Words()
    ensures AxisWord("a.r") == "r" && AxisWord("b.r2") == "r2" && AxisWord("c.r") == "r"
  {
    hide AxisWord;
    Lowered("r");
    Lowered("r2");
    LoneWord("a.", "r");
    LoneWord("b.", "r2");
    LoneWord("c.", "r");
    assert "a." + "r" == "a.r" && "b." + "r2" == "b.r2" && "c." + "r" == "c.r";
  }

  // The canonical sweep: energy and range give e and r, and a case of 500 Wh/kg and 700 nm is e500_r700.
  lemma CanonicalAliases()
    ensures var shorts := Aliases(["battery.specific_energy_whkg", "mission.range_nm"]);
      shorts == map["battery.specific_energy_whkg" := "e", "mission.range_nm" := "r"]
    ensures CaseId(["e", "r"], [500, 700]) == "e500_r700"
  {
    EnergyWord();
    RangeWord();
    hide Aliases, AxisWord;
    var none: map<string, string> := map[];
    var one := none["battery.specific_energy_whkg" := "e"];
    assert none.Values == {};
    assert one["battery.specific_energy_whkg"] == "e" && one.Values == {"e"};
    assert "energy"[..1] == "e" && "range"[..1] == "r";
    Extend([], "battery.specific_energy_whkg", none, ["battery.specific_energy_whkg"]);
    Extend(["battery.specific_energy_whkg"], "mission.range_nm", one, ["battery.specific_energy_whkg", "mission.range_nm"]);
    CanonicalId();
  }

  lemma CanonicalId()
    ensures CaseId(["e", "r"], [500, 700]) == "e500_r700"
  {
    assert NatString(50) == "50" && NatString(500) == "500";
    assert NatString(70) == "70" && NatString(700) == "700";
    hide NatString;
    assert CaseId(["r"], [700]) == "r" + "700" == "r700";
  }

  lemma EnergyWord()
    ensures AxisWord("battery.specific_energy_whkg") == "energy"
  {
    hide AxisWord, Lower;
    Lowered("whkg");
    Lowered("energy");
    UnitDropped("battery.", "specific_", "energy", "whkg", "specific_energy_whkg");
    assert "battery." + "specific_energy_whkg" == "battery.specific_energy_whkg";
  }

  lemma RangeWord()
    ensures AxisWord("mission.range_nm") == "range"
  {
    hide AxisWord;
    Lowered("nm");
    Lowered("range");
    UnitDropped("mission.", "", "range", "nm", "range_nm");
    assert "mission." + "range_nm" == "mission.range_nm";
  }

  /******* itertools.product *******/

  function Size(axes: seq<seq<int>>): nat {
    if axes == [] then 1 else |axes[0]| * Size(axes[1..])
  }

  function Headed(v: int, tails: seq<seq<int>>): (r: seq<seq<int>>)
    ensures |r| == |tails| && forall i :: 0 <= i < |r| ==> r[i] == [v] + tails[i]
  {
    seq(|tails|, i requires 0 <= i < |tails| => [v] + tails[i])
  }

  function HeadedBy(vs: seq<int>, tails: seq<seq<int>>): seq<seq<int>> {
    if vs == [] then [] else Headed(vs[0], tails) + HeadedBy(vs[1..], tails)
  }

  function Product(axes: seq<seq<int>>): seq<seq<int>> {
    if axes == [] then [[]] else HeadedBy(axes[0], Product(axes[1..]))
  }

  lemma {:induction false} HeadedByLength(vs: seq<int>, tails: seq<seq<int>>)
    ensures |HeadedBy(vs, tails)| == |vs| * |tails|
  {
    if vs != [] {
      HeadedByLength(vs[1..], tails);
      assert |vs| * |tails| == |tails| + (|vs| - 1) * |tails|;
    }
  }

  lemma {:induction false} HeadedByAt(vs: seq<int>, tails: seq<seq<int>>, a: nat, b: nat)
    requires a < |vs| && b < |tails|
    ensures a * |tails| + b < |HeadedBy(vs, tails)|
    ensures HeadedBy(vs, tails)[a * |tails| + b] == [vs[a]] + tails[b]
  {
    HeadedByLength(vs, tails);
    RowBound(a, |vs|, |tails|, b);
    if a > 0 {
      HeadedByAt(vs[1..], tails, a - 1, b);
      assert a * |tails| == |tails| + (a - 1) * |tails|;
    }
  }

  // Position i of the product, digit by digit: mixed radix with the last axis fastest
  function Row(axes: seq<seq<int>>, i: nat): (row: seq<int>)
    requires i < Size(axes)
    ensures |row| == |axes|
  {
    if axes == [] then []
    else
      var m := Size(axes[1..]);
      InTable(|axes[0]|, m, i);
      [axes[0][i / m]] + Row(axes[1..], i % m)
  }

  // A row is the value of the first axis and a row of the others.
  lemma RowSplit(axes: seq<seq<int>>, i: nat) returns (a: nat, b: nat)
    requires axes != [] && i < Size(axes)
    ensures a < |axes[0]| && b < Size(axes[1..]) && i == a * Size(axes[1..]) + b
    ensures Row(axes, i)[0] == axes[0][a] && Row(axes, i)[1..] == Row(axes[1..], b)
  {
    InTable(|axes[0]|, Size(axes[1..]), i);
    a, b := i / Size(axes[1..]), i % Size(axes[1..]);
  }

  lemma {:induction false} ProductLength(axes: seq<seq<int>>)
    ensures |Product(axes)| == Size(axes)
  {
    if axes != [] {
      ProductLength(axes[1..]);
      HeadedByLength(axes[0], Product(axes[1..]));
    }
  }

  lemma ProductSplit(axes: seq<seq<int>>, i: nat)
    requires axes != [] && i < Size(axes)
    ensures |Product(axes)| == Size(axes) && |Product(axes[1..])| == Size(axes[1..])
    ensures forall a: nat, b: nat :: a < |axes[0]| && b < Size(axes[1..]) && i == a * Size(axes[1..]) + b ==>
      Product(axes)[i] == [axes[0][a]] + Product(axes[1..])[b]
  {
    ProductLength(axes);
    ProductLength(axes[1..]);
    hide Size;
    forall a: nat, b: nat | a < |axes[0]| && b < Size(axes[1..]) && i == a * Size(axes[1..]) + b
      ensures Product(axes)[i] == [axes[0][a]] + Product(axes[1..])[b]
    {
      HeadedByAt(axes[0], Product(axes[1..]), a, b);
    }
  }

  lemma {:induction false} ProductIsRowMajor(axes: seq<seq<int>>, i: nat)
    requires i < Size(axes)
    ensures |Product(axes)| == Size(axes) && Product(axes)[i] == Row(axes, i)
  {
    ProductLength(axes);
    if axes != [] {
      ProductSplit(axes, i);
      var a, b := RowSplit(axes, i);
      hide Row, Size, HeadedBy, Product;
      ProductIsRowMajor(axes[1..], b);
      assert Row(axes, i) == [axes[0][a]] + Row(axes[1..], b);
    }
  }

  // The i-th row holds value (i / stride) mod length of each axis, the stride being the size of the axes after it.
  lemma {:induction false} RowAt(axes: seq<seq<int>>, i: nat, k: nat)
    requires i < Size(axes) && k < |axes|
    ensures Size(axes[k + 1..]) > 0 && |axes[k]| > 0
    ensures Row(axes, i)[k] == axes[k][i / Size(axes[k + 1..]) % |axes[k]|]
  {
    var m := Size(axes[1..]);
    InTable(|axes[0]|, m, i);
    if k == 0 {
      Quotient(i / m, |axes[0]|, 0, i / m);
    } else {
      RowAt(axes[1..], i % m, k - 1);
      assert axes[1..][k..] == axes[k + 1..] && axes[1..][k - 1] == axes[k];
      var n, len := Size(axes[k + 1..]), |axes[k]|;
      var q := SizeSplit(axes[1..], k);
      Stride(i, q, len, n);
      assert Row(axes, i)[k] == Row(axes[1..], i % m)[k - 1];
    }
  }

  // The size of the axes is a multiple of the length of axis k - 1 times its stride.
  lemma {:induction false} SizeSplit(axes: seq<seq<int>>, k: nat) returns (q: nat)
    requires 0 < k <= |axes|
    ensures Size(axes) == q * |axes[k - 1]| * Size(axes[k..])
  {
    if k == 1 {
      q := 1;
    } else {
      var p := SizeSplit(axes[1..], k - 1);
      assert axes[1..][k - 1..] == axes[k..] && axes[1..][k - 2] == axes[k - 1];
      q := |axes[0]| * p;
      ProductIsNat(|axes[0]|, p);
      Regroup(|axes[0]|, p, |axes[k - 1]|, Size(axes[k..]));
    }
  }

  lemma Regroup(a: nat, b: nat, c: nat, d: nat)
    ensures a * (b * c * d) == (a * b) * c * d
  {
    assert a * (b * c * d) == a * (b * c) * d;
    assert a * (b * c) == (a * b) * c;
  }

  // Taking i modulo a multiple of len * n does not change (i / n) modulo len.
  lemma Stride(i: nat, q: nat, len: nat, n: nat)
    requires len > 0 && n > 0 && q * len * n > 0
    ensures i % (q * len * n) / n % len == i / n % len
  {
    var m := q * len * n;
    var d, r := i / m, i % m;
    assert i == d * m + r;
    Regroup(d, q, len, n);
    var c := d * q;
    ProductIsNat(d, q);
    assert i == c * len * n + r;
    ProductIsNat(c, len);
    AddMultiple(r, n, c * len);
    AddMultiple(r / n, len, c);
  }

  lemma AddMultiple(r: nat, n: nat, c: nat)
    requires n > 0
    ensures (c * n + r) / n == c + r / n && (c * n + r) % n == r % n
  {
    ProductIsNat(c, n);
    assert r == (r / n) * n + r % n;
    assert (c + r / n) * n == c * n + (r / n) * n;
    Quotient(c * n + r, n, c + r / n, r % n);
  }

  /******* Every combination once *******/

  predicate NoRepeats(axis: seq<int>) { forall a, b :: 0 <= a < b < |axis| ==> axis[a] != axis[b] }

  // The row that holds the values at the given positions of the axes
  function RowNumber(axes: seq<seq<int>>, at: seq<nat>): nat
    requires |at| == |axes| && forall k :: 0 <= k < |axes| ==> at[k] < |axes[k]|
  {
    if axes == [] then 0 else at[0] * Size(axes[1..]) + RowNumber(axes[1..], at[1..])
  }

  lemma RowJoin(axes: seq<seq<int>>, a: nat, b: nat)
    requires axes != [] && a < |axes[0]| && b < Size(axes[1..])
    ensures a * Size(axes[1..]) + b < Size(axes)
    ensures Row(axes, a * Size(axes[1..]) + b) == [axes[0][a]] + Row(axes[1..], b)
  {
    var m := Size(axes[1..]);
    RowBound(a, |axes[0]|, m, b);
    Quotient(a * m + b, m, a, b);
  }

  lemma {:induction false} EveryCombination(axes: seq<seq<int>>, at: seq<nat>)
    requires |at| == |axes| && forall k :: 0 <= k < |axes| ==> at[k] < |axes[k]|
    ensures RowNumber(axes, at) < Size(axes)
    ensures forall k :: 0 <= k < |axes| ==> Row(axes, RowNumber(axes, at))[k] == axes[k][at[k]]
  {
    if axes != [] {
      var j := RowNumber(axes[1..], at[1..]);
      EveryCombination(axes[1..], at[1..]);
      RowJoin(axes, at[0], j);
      assert RowNumber(axes, at) == at[0] * Size(axes[1..]) + j;
      var row := Row(axes[1..], j);
      hide Row, Size, RowNumber;
      forall k | 0 <= k < |axes| ensures Row(axes, RowNumber(axes, at))[k] == axes[k][at[k]] {
        if k > 0 { assert row[k - 1] == axes[1..][k - 1][at[1..][k - 1]]; }
      }
    }
  }

  lemma {:induction false} RowsDiffer(axes: seq<seq<int>>, i: nat, j: nat)
    requires i < Size(axes) && j < Size(axes) && i != j && forall k :: 0 <= k < |axes| ==> NoRepeats(axes[k])
    ensures Row(axes, i) != Row(axes, j)
  {
    if axes != [] {
      var a, b := RowSplit(axes, i);
      var c, d := RowSplit(axes, j);
      assert NoRepeats(axes[0]);
      forall k | 0 <= k < |axes[1..]| ensures NoRepeats(axes[1..][k]) { assert NoRepeats(axes[k + 1]); }
      hide Row, Size;
      if a == c {
        RowsDiffer(axes[1..], b, d);
      }
    }
  }

  // A value that occurs twice on an axis gives two rows that are the same.
  lemma {:induction false} TwinRows(axes: seq<seq<int>>, k: nat, a: nat, b: nat) returns (i: nat, j: nat)
    requires Size(axes) > 0 && k < |axes| && a < b < |axes[k]| && axes[k][a] == axes[k][b]
    ensures i < j < Size(axes) && Row(axes, i) == Row(axes, j)
  {
    InTable(|axes[0]|, Size(axes[1..]), 0);
    hide Row, Size;
    if k == 0 {
      RowJoin(axes, a, 0);
      RowJoin(axes, b, 0);
      i, j := a * Size(axes[1..]) + 0, b * Size(axes[1..]) + 0;
      LessTimes(a, b, Size(axes[1..]));
    } else {
      assert axes[1..][k - 1] == axes[k];
      i, j := TwinRows(axes[1..], k - 1, a, b);
      RowJoin(axes, 0, i);
      RowJoin(axes, 0, j);
    }
  }

  /******* Case ids *******/

  // "_".join(alias + value)
  function CaseId(aliases: seq<string>, values: seq<int>): string
    requires |aliases| == |values|
  {
    if values == [] then ""
    else if |values| == 1 then aliases[0] + FormatValue(values[0])
    else aliases[0] + FormatValue(values[0]) + "_" + CaseId(aliases[1..], values[1..])
  }

  function Parts(aliases: seq<string>, values: seq<int>): seq<string>
    requires |aliases| == |values|
  {
    seq(|values|, i requires 0 <= i < |values| => aliases[i] + FormatValue(values[i]))
  }

  lemma {:induction false} JoinFirst(first: string, parts: seq<string>, c: char)
    requires parts != []
    ensures Join([first] + parts, c) == first + [c] + Join(parts, c)
  {
    var n := |parts| - 1;
    assert [first] + parts == ([first] + parts[..n]) + [parts[n]] && parts == parts[..n] + [parts[n]];
    JoinPush([first] + parts[..n], parts[n], c);
    JoinPush(parts[..n], parts[n], c);
    if n > 0 { JoinFirst(first, parts[..n], c); } else { JoinPush([], first, c); }
  }

  lemma {:induction false} CaseIdJoins(aliases: seq<string>, values: seq<int>)
    requires |aliases| == |values|
    ensures CaseId(aliases, values) == Join(Parts(aliases, values), '_')
  {
    if |values| > 1 {
      var rest := Parts(aliases[1..], values[1..]);
      assert Parts(aliases, values) == [aliases[0] + FormatValue(values[0])] + rest;
      JoinFirst(aliases[0] + FormatValue(values[0]), rest, '_');
      CaseIdJoins(aliases[1..], values[1..]);
    }
  }

  // The id of a case of a sweep, split at its underscores, gives the alias and the value of every axis in order.
  lemma CaseIdSplits(keys: seq<string>, values: seq<int>)
    requires |keys| == |values| && keys != [] && DistinctKeys(keys)
    ensures forall k <- keys :: k in Aliases(keys)
    ensures var aliases := AliasList(keys, Aliases(keys));
      Split(CaseId(aliases, values), '_') == Parts(aliases, values)
  {
    AliasesAreNames(keys);
    var aliases := AliasList(keys, Aliases(keys));
    CaseIdJoins(aliases, values);
    hide CaseId, AliasList, Aliases, FormatValue, AxisWord, NatString, Elements;
    forall i | 0 <= i < |keys| ensures '_' !in aliases[i] + FormatValue(values[i]) {
      AliasHasNoUnderscore(aliases[i], keys[i], i, Elements(aliases[..i]));
      ValueHasNoUnderscore(values[i]);
    }
    SplitIff(Join(Parts(aliases, values), '_'), '_', Parts(aliases, values));
  }

  lemma AliasHasNoUnderscore(alias: string, key: string, i: nat, taken: set<string>)
    requires IsAlias(alias, AxisWord(key), i, taken)
    ensures '_' !in alias
  {
    hide AxisWord;
    WordHasNoUnderscore(key);
    var index := NatString(i);
    assert '_' !in index;
  }

  lemma WordHasNoUnderscore(key: string)
    ensures '_' !in AxisWord(key)
  {
    hide AxisWord, Lower, Split, Join;
    AxisWordIs(key);
    var segments := Split(key, '.');
    var words := Split(segments[|segments| - 1], '_');
    SplitJoins(segments[|segments| - 1], '_');
    LowerKeeps(words[|words| - 1]);
    if |words| > 1 { LowerKeeps(words[|words| - 2]); }
  }

  lemma LowerKeeps(s: string)
    requires '_' !in s
    ensures '_' !in Lower(s)
  {
    LowerAt(s);
  }

  lemma FirstUnderscore(f: string, x: string)
    requires '_' !in f
    ensures (f + "_" + x)[|f|] == '_' && forall n :: 0 <= n < |f| ==> (f + "_" + x)[n] != '_'
  {
    forall n | 0 <= n < |f| ensures (f + "_" + x)[n] != '_' { assert (f + "_" + x)[n] == f[n]; }
  }

  // A value ends at the first underscore after its alias.
  lemma ValueEnds(f: string, g: string, x: string, y: string)
    requires '_' !in f && '_' !in g && f + "_" + x == g + "_" + y
    ensures f == g && x == y
  {
    FirstUnderscore(f, x);
    FirstUnderscore(g, y);
    var s, t := f + "_" + x, g + "_" + y;
    assert |f| == |g|;
    assert s[..|f|] == f && t[..|f|] == g;
    assert s[|f| + 1..] == x && t[|f| + 1..] == y;
  }

  lemma ValueHasNoUnderscore(v: int)
    ensures '_' !in FormatValue(v)
  {}

  lemma SameAlias(a: string, x: string, y: string)
    requires a + x == a + y
    ensures x == y
  {
    assert (a + x)[|a|..] == x && (a + y)[|a|..] == y;
  }

  lemma Spelled(aliases: seq<string>, v: seq<int>)
    requires |aliases| == |v| > 1
    ensures CaseId(aliases, v) == aliases[0] + (FormatValue(v[0]) + "_" + CaseId(aliases[1..], v[1..]))
  {}

  // Whatever the aliases are, equal ids come from equal values.
  lemma {:induction false} CaseIdInjective(aliases: seq<string>, v: seq<int>, w: seq<int>)
    requires |aliases| == |v| == |w| && CaseId(aliases, v) == CaseId(aliases, w)
    ensures v == w
  {
    if v != [] {
      var a, f, g := aliases[0], FormatValue(v[0]), FormatValue(w[0]);
      if |v| > 1 { Spelled(aliases, v); Spelled(aliases, w); }
      ValueHasNoUnderscore(v[0]);
      ValueHasNoUnderscore(w[0]);
      if |v| == 1 {
        SameAlias(a, f, g);
      } else {
        var x, y := CaseId(aliases[1..], v[1..]), CaseId(aliases[1..], w[1..]);
        hide FormatValue, CaseId;
        SameAlias(a, f + "_" + x, g + "_" + y);
        ValueEnds(f, g, x, y);
        CaseIdInjective(aliases[1..], v[1..], w[1..]);
      }
      FormatInjective(v[0], w[0]);
      assert v == [v[0]] + v[1..] && w == [w[0]] + w[1..];
    }
  }

  /******* case_matrix *******/

  datatype Case = Case(caseId: string, overrides: map<string, int>)

  predicate DistinctKeys(keys: seq<string>) { forall a, b :: 0 <= a < b < |keys| ==> keys[a] != keys[b] }

  function AliasList(keys: seq<string>, shorts: map<string, string>): (r: seq<string>)
    requires forall k <- keys :: k in shorts
    ensures |r| == |keys|
  {
    seq(|keys|, i requires 0 <= i < |keys| => shorts[keys[i]])
  }

  // dict(zip(keys, values))
  function Zip(keys: seq<string>, values: seq<int>): (m: map<string, int>)
    requires |keys| == |values|
  {
    if keys == [] then map[] else Zip(keys[..|keys| - 1], values[..|keys| - 1])[keys[|keys| - 1] := values[|keys| - 1]]
  }

  lemma {:induction false} ZipAt(keys: seq<string>, values: seq<int>, k: nat)
    requires |keys| == |values| && DistinctKeys(keys) && k < |keys|
    ensures keys[k] in Zip(keys, values) && Zip(keys, values)[keys[k]] == values[k]
  {
    if k < |keys| - 1 { ZipAt(keys[..|keys| - 1], values[..|keys| - 1], k); }
  }

  lemma {:induction false} ZipKeys(keys: seq<string>, values: seq<int>)
    requires |keys| == |values|
    ensures forall k <- Zip(keys, values) :: k in keys
  {
    if keys != [] { ZipKeys(keys[..|keys| - 1], values[..|keys| - 1]); }
  }

  // The matrix of a sweep, a dict of axes in order
  ghost predicate IsMatrix(keys: seq<string>, axes: seq<seq<int>>, cases: seq<Case>)
    requires |keys| == |axes|
  {
    && |cases| == Size(axes)
    && forall i: nat :: i < Size(axes) ==> IsCase(keys, Row(axes, i), cases[i])
  }

  // The overrides give every axis its value of the row, and the id spells the row out.
  ghost predicate IsCase(keys: seq<string>, row: seq<int>, c: Case) {
    && |row| == |keys| && (forall k :: 0 <= k < |keys| ==> keys[k] in c.overrides && c.overrides[keys[k]] == row[k])
    && (forall k <- c.overrides :: k in keys)
    && (forall k <- keys :: k in Aliases(keys)) && c.caseId == CaseId(AliasList(keys, Aliases(keys)), row)
  }

  lemma MadeCase(keys: seq<string>, row: seq<int>)
    requires |row| == |keys| && DistinctKeys(keys)
    ensures (forall k <- keys :: k in Aliases(keys))
    ensures IsCase(keys, row, Case(CaseId(AliasList(keys, Aliases(keys)), row), Zip(keys, row)))
  {
    AliasesKeys(keys);
    ZipKeys(keys, row);
    forall k | 0 <= k < |keys| ensures keys[k] in Zip(keys, row) && Zip(keys, row)[keys[k]] == row[k] {
      ZipAt(keys, row, k);
    }
  }

  method MakeMatrix(keys: seq<string>, axes: seq<seq<int>>) returns (cases: seq<Case>)
    requires |keys| == |axes| && DistinctKeys(keys)
    ensures IsMatrix(keys, axes, cases)
  {
    hide IsCase, Row, Aliases, AliasList, CaseId, Zip, Product, Size;
    var shorts := ShortNames(keys);
    AliasesKeys(keys);
    var rows := Product(axes);
    ProductLength(axes);
    cases := [];
    for i := 0 to |rows|
      invariant |cases| == i && AreCases(keys, axes, cases)
    {
      ProductIsRowMajor(axes, i);
      MadeCase(keys, rows[i]);
      CasesPush(keys, axes, cases, Case(CaseId(AliasList(keys, shorts), rows[i]), Zip(keys, rows[i])));
      cases := cases + [Case(CaseId(AliasList(keys, shorts), rows[i]), Zip(keys, rows[i]))];
    }
  }

  // The first cases of the matrix
  ghost predicate AreCases(keys: seq<string>, axes: seq<seq<int>>, cases: seq<Case>) {
    |cases| <= Size(axes) && forall n: nat :: n < |cases| ==> IsCase(keys, Row(axes, n), cases[n])
  }

  lemma CasesPush(keys: seq<string>, axes: seq<seq<int>>, cases: seq<Case>, c: Case)
    requires AreCases(keys, axes, cases) && |cases| < Size(axes) && IsCase(keys, Row(axes, |cases|), c)
    ensures AreCases(keys, axes, cases + [c])
  {
    hide IsCase, Row, Size;
  }

  // The cases of a sweep without repeated values have pairwise different ids.
  lemma CaseIdsDiffer(keys: seq<string>, axes: seq<seq<int>>, cases: seq<Case>, i: nat, j: nat)
    requires |keys| == |axes| && IsMatrix(keys, axes, cases) && (forall k :: 0 <= k < |axes| ==> NoRepeats(axes[k]))
    requires i < |cases| && j < |cases| && i != j
    ensures cases[i].caseId != cases[j].caseId
  {
    RowsDiffer(axes, i, j);
    assert IsCase(keys, Row(axes, i), cases[i]) && IsCase(keys, Row(axes, j), cases[j]);
    if cases[i].caseId == cases[j].caseId {
      CaseIdInjective(AliasList(keys, Aliases(keys)), Row(axes, i), Row(axes, j));
    }
  }

  // An id spells its overrides out.
  lemma IdsSpell(keys: seq<string>, axes: seq<seq<int>>, cases: seq<Case>, i: nat, j: nat)
    requires |keys| == |axes| && IsMatrix(keys, axes, cases) && i < |cases| && j < |cases| && cases[i].caseId == cases[j].caseId
    ensures cases[i].overrides == cases[j].overrides
  {
    assert IsCase(keys, Row(axes, i), cases[i]) && IsCase(keys, Row(axes, j), cases[j]);
    CaseIdInjective(AliasList(keys, Aliases(keys)), Row(axes, i), Row(axes, j));
    SameOverrides(keys, Row(axes, i), cases[i], cases[j]);
  }

  lemma SameOverrides(keys: seq<string>, row: seq<int>, c: Case, d: Case)
    requires IsCase(keys, row, c) && IsCase(keys, row, d)
    ensures c.overrides == d.overrides
  {
    hide Aliases, AliasList, CaseId;
    forall k | k in c.overrides || k in d.overrides
      ensures k in c.overrides && k in d.overrides && c.overrides[k] == d.overrides[k]
    {
      var n :| 0 <= n < |keys| && keys[n] == k;
    }
  }

  // So the ids of a sweep that has cases are pairwise different exactly if no axis repeats a value.
  lemma CaseIdsDifferIff(keys: seq<string>, axes: seq<seq<int>>, cases: seq<Case>)
    requires |keys| == |axes| && IsMatrix(keys, axes, cases) && cases != []
    ensures (forall i, j :: 0 <= i < j < |cases| ==> cases[i].caseId != cases[j].caseId) <==>
      forall k :: 0 <= k < |axes| ==> NoRepeats(axes[k])
  {
    if forall k :: 0 <= k < |axes| ==> NoRepeats(axes[k]) {
      forall i, j | 0 <= i < j < |cases| ensures cases[i].caseId != cases[j].caseId { CaseIdsDiffer(keys, axes, cases, i, j); }
    } else {
      var k :| 0 <= k < |axes| && !NoRepeats(axes[k]);
      var a, b :| 0 <= a < b < |axes[k]| && axes[k][a] == axes[k][b];
      var i, j := TwinRows(axes, k, a, b);
      assert IsCase(keys, Row(axes, i), cases[i]) && IsCase(keys, Row(axes, j), cases[j]);
    }
  }
}
