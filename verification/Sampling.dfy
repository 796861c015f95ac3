/** Round-robin sampling over groups and the key-disjoint split (`sampling.py`). */
module Sampling {
  import opened Collections
  import opened Numbers

  /** The items of one group, in order. */
  function ByKey<T(!new)>(items: seq<T>, key: T -> string, g: string): (r: seq<T>)
    ensures |r| <= |items|
  {
    if items == [] then []
    else
      var rest := ByKey(items[..|items| - 1], key, g);
      var last := items[|items| - 1];
      if key(last) == g then rest + [last] else rest
  }

  predicate Distinct(s: seq<string>) {
    forall i, j :: 0 <= i < j < |s| ==> s[i] != s[j]
  }

  /** `order` lists every key of `items`, and no other, once. */
  ghost predicate ListsKeys<T(!new)>(order: seq<string>, items: seq<T>, key: T -> string) {
    Distinct(order) && forall g :: g in order <==> ByKey(items, key, g) != []
  }

  lemma {:induction false} Members<T(!new)>(items: seq<T>, key: T -> string, g: string, x: T)
    ensures x in ByKey(items, key, g) <==> x in items && key(x) == g
  {
    if items != [] {
      Members(items[..|items| - 1], key, g, x);
      assert items == items[..|items| - 1] + [items[|items| - 1]];
    }
  }

  lemma KeysListed<T(!new)>(order: seq<string>, items: seq<T>, key: T -> string)
    requires ListsKeys(order, items, key)
    ensures forall x :: x in items ==> key(x) in order
  {
    forall x | x in items ensures key(x) in order {
      Members(items, key, key(x), x);
    }
  }

  lemma ByKeyAppend<T(!new)>(items: seq<T>, x: T, key: T -> string, g: string)
    ensures ByKey(items + [x], key, g) == ByKey(items, key, g) + (if key(x) == g then [x] else [])
  {
    assert (items + [x])[..|items|] == items;
  }

  /** The items of the first groups of `order`. */
  function SizeUpTo<T(!new)>(items: seq<T>, key: T -> string, order: seq<string>): nat {
    if order == [] then 0
    else SizeUpTo(items, key, order[..|order| - 1]) + |ByKey(items, key, order[|order| - 1])|
  }

  lemma {:induction false} SizeOfAppended<T(!new)>(items: seq<T>, x: T, key: T -> string, order: seq<string>)
    requires Distinct(order)
    ensures SizeUpTo(items + [x], key, order) == SizeUpTo(items, key, order) + (if key(x) in order then 1 else 0)
  {
    if order != [] {
      var rest, last := order[..|order| - 1], order[|order| - 1];
      SizeOfAppended(items, x, key, rest);
      ByKeyAppend(items, x, key, last);
      assert order == rest + [last];
      assert last !in rest;
    }
  }

  /** The groups of a complete list of keys hold every item once. */
  lemma {:induction false} GroupsHoldEverything<T(!new)>(items: seq<T>, key: T -> string, order: seq<string>)
    requires Distinct(order) && forall x :: x in items ==> key(x) in order
    ensures SizeUpTo(items, key, order) == |items|
    decreases |items|, |order|
  {
    if items == [] {
      if order != [] {
        GroupsHoldEverything(items, key, order[..|order| - 1]);
      }
    } else {
      var rest, last := items[..|items| - 1], items[|items| - 1];
      assert items == rest + [last];
      GroupsHoldEverything(rest, key, order);
      SizeOfAppended(rest, last, key, order);
    }
  }

  lemma {:induction false} SizesAgree<T(!new)>(a: seq<T>, b: seq<T>, key: T -> string, order: seq<string>)
    requires forall g :: g in order ==> |ByKey(a, key, g)| == |ByKey(b, key, g)|
    ensures SizeUpTo(a, key, order) == SizeUpTo(b, key, order)
  {
    if order != [] {
      SizesAgree(a, b, key, order[..|order| - 1]);
    }
  }

  /** A group holds as many copies of its members as the whole list. */
  lemma {:induction false} CopiesInGroup<T(!new)>(items: seq<T>, key: T -> string, x: T)
    ensures multiset(ByKey(items, key, key(x)))[x] == multiset(items)[x]
  {
    if items != [] {
      var rest, last := items[..|items| - 1], items[|items| - 1];
      assert items == rest + [last];
      CopiesInGroup(rest, key, x);
      ByKeyAppend(rest, last, key, key(x));
    }
  }

  lemma AllGroupsAppend<T(!new)>(items: seq<T>, x: T, key: T -> string)
    ensures forall g :: ByKey(items + [x], key, g) == ByKey(items, key, g) + (if key(x) == g then [x] else [])
  {
    forall g ensures ByKey(items + [x], key, g) == ByKey(items, key, g) + (if key(x) == g then [x] else []) {
      ByKeyAppend(items, x, key, g);
    }
  }

  /** The dictionary of groups and its insertion order. */
  method GroupBy<T(!new)>(items: seq<T>, key: T -> string) returns (groups: map<string, seq<T>>, seen: seq<string>)
    ensures ListsKeys(seen, items, key)
    ensures forall g :: g in groups <==> g in seen
    ensures forall g :: g in groups ==> groups[g] == ByKey(items, key, g)
  {
    groups, seen := map[], [];
    for i := 0 to |items|
      invariant ListsKeys(seen, items[..i], key)
      invariant forall g :: g in groups <==> g in seen
      invariant forall g :: g in groups ==> groups[g] == ByKey(items[..i], key, g)
    {
      var item := items[i];
      assert items[..i + 1] == items[..i] + [item];
      AllGroupsAppend(items[..i], item, key);
      if key(item) !in groups {
        assert ByKey(items[..i], key, key(item)) == [];
        groups := groups[key(item) := []];
        seen := seen + [key(item)];
      }
      groups := groups[key(item) := groups[key(item)] + [item]];
    }
    assert items[..|items|] == items;
  }

  /** Picks of a group of `size` after `index` full rounds and, if `done`, its turn in the next. */
  function Taken(index: nat, done: bool, size: nat): nat {
    Min(size, if done then index + 1 else index)
  }

  /** After `index` rounds and the turns of the first `turn` groups, each group has given a prefix of itself. */
  ghost predicate Dealt<T(!new)>(result: seq<T>, key: T -> string, order: seq<string>, groups: map<string, seq<T>>,
                                 index: nat, turn: nat)
    requires forall g :: g in order ==> g in groups
  {
    && (forall x :: x in result ==> key(x) in order)
    && (forall p :: 0 <= p < |order| ==>
          ByKey(result, key, order[p]) == groups[order[p]][..Taken(index, p < turn, |groups[order[p]]|)])
  }

  /** No group is two picks ahead of another, unless the other is exhausted. */
  ghost predicate Fair<T(!new)>(result: seq<T>, items: seq<T>, key: T -> string) {
    forall g, h :: |ByKey(result, key, g)| <= |ByKey(result, key, h)| + 1 || |ByKey(result, key, h)| == |ByKey(items, key, h)|
  }

  ghost predicate SampleOf<T(!new)>(result: seq<T>, items: seq<T>, key: T -> string, k: int) {
    && |result| == (if k <= 0 then 0 else Min(k, |items|))
    && multiset(result) <= multiset(items)
    && Fair(result, items, key)
  }

  ghost predicate Rearranges<T(!new)>(groups: map<string, seq<T>>, items: seq<T>, key: T -> string, order: seq<string>) {
    forall g :: g in order ==> g in groups && multiset(groups[g]) == multiset(ByKey(items, key, g))
  }

  lemma GroupSize<T(!new)>(items: seq<T>, key: T -> string, order: seq<string>, groups: map<string, seq<T>>, g: string)
    requires Rearranges(groups, items, key, order) && g in order
    ensures |groups[g]| == |ByKey(items, key, g)|
  {
    assert |multiset(groups[g])| == |multiset(ByKey(items, key, g))|;
  }

  /** The picks from the group at position `p`. */
  lemma PicksAt<T(!new)>(result: seq<T>, items: seq<T>, key: T -> string, order: seq<string>, groups: map<string, seq<T>>,
                         index: nat, turn: nat, p: nat)
    requires Rearranges(groups, items, key, order) && p < |order|
    requires Dealt(result, key, order, groups, index, turn)
    ensures |ByKey(result, key, order[p])| == Taken(index, p < turn, |ByKey(items, key, order[p])|)
    ensures multiset(ByKey(result, key, order[p])) <= multiset(ByKey(items, key, order[p]))
  {
    GroupSize(items, key, order, groups, order[p]);
    PrefixIsPart(groups[order[p]], Taken(index, p < turn, |groups[order[p]]|));
  }

  lemma PicksOfUnlisted<T(!new)>(items: seq<T>, key: T -> string, order: seq<string>, g: string)
    requires (forall x :: x in items ==> key(x) in order) && g !in order
    ensures ByKey(items, key, g) == []
  {
    if ByKey(items, key, g) != [] {
      var x := ByKey(items, key, g)[0];
      Members(items, key, g, x);
    }
  }

  lemma DealtIsPart<T(!new)>(result: seq<T>, items: seq<T>, key: T -> string, order: seq<string>, groups: map<string, seq<T>>,
                             index: nat, turn: nat)
    requires Rearranges(groups, items, key, order) && Dealt(result, key, order, groups, index, turn)
    ensures multiset(result) <= multiset(items)
  {
    forall x ensures multiset(result)[x] <= multiset(items)[x] {
      if x in result {
        var p :| 0 <= p < |order| && order[p] == key(x);
        PicksAt(result, items, key, order, groups, index, turn, p);
        CopiesInGroup(result, key, x);
        CopiesInGroup(items, key, x);
      }
    }
  }

  /** At any turn of any round, the picks so far are a fair sample. */
  lemma DealtIsFair<T(!new)>(result: seq<T>, items: seq<T>, key: T -> string, order: seq<string>, groups: map<string, seq<T>>,
                             index: nat, turn: nat)
    requires ListsKeys(order, items, key) && Rearranges(groups, items, key, order)
    requires Dealt(result, key, order, groups, index, turn)
    ensures multiset(result) <= multiset(items) && Fair(result, items, key)
  {
    DealtIsPart(result, items, key, order, groups, index, turn);
    forall g, h
      ensures |ByKey(result, key, g)| <= |ByKey(result, key, h)| + 1 || |ByKey(result, key, h)| == |ByKey(items, key, h)|
    {
      if g !in order {
        PicksOfUnlisted(result, key, order, g);
      } else if h !in order {
        PicksOfUnlisted(result, key, order, h);
        assert ByKey(items, key, h) == [];
      } else {
        var p :| 0 <= p < |order| && order[p] == g;
        var q :| 0 <= q < |order| && order[q] == h;
        PicksAt(result, items, key, order, groups, index, turn, p);
        PicksAt(result, items, key, order, groups, index, turn, q);
      }
    }
  }

  lemma PrefixIsPart<T>(s: seq<T>, n: nat)
    requires n <= |s|
    ensures multiset(s[..n]) <= multiset(s)
  {
    assert s == s[..n] + s[n..];
  }

  /** Everybody's turn has come and nobody had anything left: everything has been dealt. */
  lemma DealtOut<T(!new)>(result: seq<T>, items: seq<T>, key: T -> string, order: seq<string>, groups: map<string, seq<T>>,
                          index: nat)
    requires ListsKeys(order, items, key) && Rearranges(groups, items, key, order)
    requires Dealt(result, key, order, groups, index, 0)
    requires forall p :: 0 <= p < |order| ==> |groups[order[p]]| <= index
    ensures |result| == |items|
  {
    forall g | g in order ensures |ByKey(result, key, g)| == |ByKey(items, key, g)| {
      var p :| 0 <= p < |order| && order[p] == g;
      GroupSize(items, key, order, groups, g);
      PicksAt(result, items, key, order, groups, index, 0, p);
    }
    KeysListed(order, items, key);
    SizesAgree(result, items, key, order);
    GroupsHoldEverything(result, key, order);
    GroupsHoldEverything(items, key, order);
  }

  lemma DealtNeverExceeds<T(!new)>(result: seq<T>, items: seq<T>)
    requires multiset(result) <= multiset(items)
    ensures |result| <= |items|
  {
    assert |multiset(result)| + |multiset(items) - multiset(result)| == |multiset(items)|;
    assert |multiset(items)| == |items|;
  }

  /** A whole round is the start of the next one. */
  lemma NextRound<T(!new)>(result: seq<T>, key: T -> string, order: seq<string>, groups: map<string, seq<T>>, index: nat)
    requires forall g :: g in order ==> g in groups
    requires Dealt(result, key, order, groups, index, |order|)
    ensures Dealt(result, key, order, groups, index + 1, 0)
  {}

  lemma SkipOne<T(!new)>(result: seq<T>, key: T -> string, order: seq<string>, groups: map<string, seq<T>>,
                         index: nat, turn: nat)
    requires forall g :: g in order ==> g in groups
    requires Dealt(result, key, order, groups, index, turn) && turn < |order| && |groups[order[turn]]| <= index
    ensures Dealt(result, key, order, groups, index, turn + 1)
  {}

  /** An item of a pile belongs to the group of the pile. */
  lemma PileKey<T(!new)>(items: seq<T>, key: T -> string, order: seq<string>, groups: map<string, seq<T>>,
                         g: string, index: nat)
    requires Rearranges(groups, items, key, order) && g in order && index < |groups[g]|
    ensures key(groups[g][index]) == g
  {
    assert groups[g][index] in multiset(groups[g]);
    assert groups[g][index] in multiset(ByKey(items, key, g));
    Members(items, key, g, groups[g][index]);
  }

  lemma DealAt<T(!new)>(result: seq<T>, key: T -> string, order: seq<string>, pile: seq<T>, x: T,
                        index: nat, turn: nat, p: nat)
    requires Distinct(order) && p < |order| && turn < |order| && key(x) == order[turn]
    requires ByKey(result, key, order[p]) == pile[..Taken(index, p < turn, |pile|)]
    requires p == turn ==> index < |pile| && x == pile[index]
    ensures ByKey(result + [x], key, order[p]) == pile[..Taken(index, p < turn + 1, |pile|)]
  {
    ByKeyAppend(result, x, key, order[p]);
    var taken := Taken(index, p < turn, |pile|);
    if p == turn {
      assert taken == index && Taken(index, true, |pile|) == index + 1;
      assert pile[..index] + [x] == pile[..index + 1];
    } else {
      assert order[p] != order[turn];
      assert Taken(index, p < turn + 1, |pile|) == taken;
    }
  }

  lemma DealOne<T(!new)>(result: seq<T>, items: seq<T>, key: T -> string, order: seq<string>, groups: map<string, seq<T>>,
                         index: nat, turn: nat)
    requires ListsKeys(order, items, key) && Rearranges(groups, items, key, order)
    requires Dealt(result, key, order, groups, index, turn) && turn < |order| && index < |groups[order[turn]]|
    ensures Dealt(result + [groups[order[turn]][index]], key, order, groups, index, turn + 1)
  {
    var x := groups[order[turn]][index];
    PileKey(items, key, order, groups, order[turn], index);
    forall p | 0 <= p < |order|
      ensures ByKey(result + [x], key, order[p]) == groups[order[p]][..Taken(index, p < turn + 1, |groups[order[p]]|)]
    {
      DealAt(result, key, order, groups[order[p]], x, index, turn, p);
    }
  }

  method ShuffleGroups<T(!new)>(grouped: map<string, seq<T>>, items: seq<T>, key: T -> string, order: seq<string>,
                                shuffle: seq<T> -> seq<T>)
    returns (groups: map<string, seq<T>>)
    requires Distinct(order) && forall g :: g in order ==> g in grouped && grouped[g] == ByKey(items, key, g)
    requires forall s :: multiset(shuffle(s)) == multiset(s)
    ensures Rearranges(groups, items, key, order)
  {
    groups := grouped;
    for i := 0 to |order|
      invariant forall p :: 0 <= p < |order| ==> order[p] in groups
      invariant forall p :: 0 <= p < |order| ==> multiset(groups[order[p]]) == multiset(ByKey(items, key, order[p]))
    {
      groups := groups[order[i] := shuffle(groups[order[i]])];
    }
  }

  /** One round of the deal, cut short when `k` picks are made. */
  method DealRound<T(!new)>(picked: seq<T>, k: int, order: seq<string>, groups: map<string, seq<T>>, index: nat,
                            ghost items: seq<T>, ghost key: T -> string)
    returns (result: seq<T>, advanced: bool)
    requires ListsKeys(order, items, key) && Rearranges(groups, items, key, order)
    requires |picked| < k && Dealt(picked, key, order, groups, index, 0)
    ensures |result| <= k && (advanced <==> |result| > |picked|) && |result| >= |picked|
    ensures multiset(result) <= multiset(items) && Fair(result, items, key)
    ensures |result| < k ==> Dealt(result, key, order, groups, index + 1, 0)
    ensures !advanced ==> |result| == |items|
  {
    result, advanced := picked, false;
    for i := 0 to |order|
      invariant |picked| <= |result| < k && Dealt(result, key, order, groups, index, i)
      invariant advanced <==> |result| > |picked|
      invariant !advanced ==> forall p :: 0 <= p < i ==> |groups[order[p]]| <= index
    {
      if index < |groups[order[i]]| {
        DealOne(result, items, key, order, groups, index, i);
        result := result + [groups[order[i]][index]];
        advanced := true;
        if |result| >= k {
          DealtIsFair(result, items, key, order, groups, index, i + 1);
          return;
        }
      } else {
        SkipOne(result, key, order, groups, index, i);
      }
    }
    NextRound(result, key, order, groups, index);
    DealtIsFair(result, items, key, order, groups, index + 1, 0);
    if !advanced {
      DealtOut(result, items, key, order, groups, index + 1);
    }
  }

  /**
   * `order` is the order in which the groups are visited (the sorted keys) and `shuffle` the rearrangement the
   * seeded generator makes of each group.
   */
  method DiverseSample<T(!new)>(items: seq<T>, key: T -> string, k: int, order: seq<string>, shuffle: seq<T> -> seq<T>)
    returns (result: seq<T>)
    requires ListsKeys(order, items, key)
    requires forall s :: multiset(shuffle(s)) == multiset(s)
    ensures SampleOf(result, items, key, k)
  {
    result := [];
    if k <= 0 || items == [] {
      return;
    }
    var grouped, seen := GroupBy(items, key);
    var groups := ShuffleGroups(grouped, items, key, order, shuffle);
    var index := 0;
    DealtIsFair(result, items, key, order, groups, 0, 0);
    while |result| < k
      invariant |result| <= k && multiset(result) <= multiset(items) && Fair(result, items, key)
      invariant |result| < k ==> Dealt(result, key, order, groups, index, 0)
      decreases k - |result|
    {
      var advanced;
      result, advanced := DealRound(result, k, order, groups, index, items, key);
      if !advanced {
        break;
      }
      index := index + 1;
    }
    DealtNeverExceeds(result, items);
  }

  // ---------------------------------------------------------------- split

  /** The part of `items` whose keys are in `keys`. */
  function PartOf<T>(items: seq<T>, key: T -> string, keys: set<string>): seq<T> {
    if items == [] then []
    else
      var rest, last := PartOf(items[..|items| - 1], key, keys), items[|items| - 1];
      if key(last) in keys then rest + [last] else rest
  }

  lemma {:induction false} PartCopies<T(!new)>(items: seq<T>, key: T -> string, keys: set<string>, x: T)
    ensures multiset(PartOf(items, key, keys))[x] == if key(x) in keys then multiset(items)[x] else 0
  {
    if items != [] {
      PartCopies(items[..|items| - 1], key, keys, x);
      assert items == items[..|items| - 1] + [items[|items| - 1]];
    }
  }

  lemma {:induction false} PartOfNone<T(!new)>(items: seq<T>, key: T -> string)
    ensures PartOf(items, key, {}) == []
  {
    if items != [] {
      PartOfNone(items[..|items| - 1], key);
    }
  }

  /** One more key adds its group. */
  lemma PartGrows<T(!new)>(items: seq<T>, key: T -> string, keys: set<string>, g: string)
    requires g !in keys
    ensures multiset(PartOf(items, key, keys + {g})) == multiset(PartOf(items, key, keys)) + multiset(ByKey(items, key, g))
  {
    forall x ensures multiset(PartOf(items, key, keys + {g}))[x] ==
                     (multiset(PartOf(items, key, keys)) + multiset(ByKey(items, key, g)))[x] {
      PartCopies(items, key, keys + {g}, x);
      PartCopies(items, key, keys, x);
      if key(x) == g {
        CopiesInGroup(items, key, x);
      } else {
        Members(items, key, g, x);
      }
    }
  }

  /** The items with a key in `keys` are dealt out: those with a chosen key to `holdout`, the others to `dev`. */
  ghost predicate SplitBy<T(!new)>(items: seq<T>, key: T -> string, keys: set<string>, chosen: set<string>,
                                   dev: seq<T>, holdout: seq<T>)
  {
    && multiset(holdout) == multiset(PartOf(items, key, keys * chosen))
    && multiset(dev) == multiset(PartOf(items, key, keys - chosen))
  }

  lemma SplitGrows<T(!new)>(items: seq<T>, key: T -> string, keys: set<string>, chosen: set<string>, g: string,
                            dev: seq<T>, holdout: seq<T>)
    requires g !in keys && SplitBy(items, key, keys, chosen, dev, holdout)
    ensures if g in chosen then SplitBy(items, key, keys + {g}, chosen, dev, holdout + ByKey(items, key, g))
            else SplitBy(items, key, keys + {g}, chosen, dev + ByKey(items, key, g), holdout)
  {
    if g in chosen {
      PartGrows(items, key, keys * chosen, g);
      assert (keys + {g}) * chosen == keys * chosen + {g} && (keys + {g}) - chosen == keys - chosen;
    } else {
      PartGrows(items, key, keys - chosen, g);
      assert (keys + {g}) * chosen == keys * chosen && (keys + {g}) - chosen == keys - chosen + {g};
    }
  }

  lemma NextElement(s: seq<string>, i: nat)
    requires Distinct(s) && i < |s|
    ensures s[i] !in Elements(s[..i]) && Elements(s[..i + 1]) == Elements(s[..i]) + {s[i]}
  {
    assert s[..i + 1] == s[..i] + [s[i]];
  }

  function HoldoutCount(groups: nat, fraction: real): nat {
    Max(1, Round(groups as real * fraction))
  }

  /** The first keys of the shuffled list of groups. */
  function HoldoutKeys(order: seq<string>, fraction: real): set<string> {
    Elements(order[..Min(HoldoutCount(|order|, fraction), |order|)])
  }

  /** `order` is the shuffled list of the groups. */
  method SplitDevHoldout<T(!new)>(items: seq<T>, key: T -> string, fraction: real, order: seq<string>)
    returns (dev: seq<T>, holdout: seq<T>)
    requires ListsKeys(order, items, key)
    ensures multiset(dev) + multiset(holdout) == multiset(items)
    ensures forall x, y :: x in dev && y in holdout ==> key(x) != key(y)
    ensures forall x :: x in holdout <==> x in items && key(x) in HoldoutKeys(order, fraction)
  {
    var groups, seen := GroupBy(items, key);
    var holdoutKeys := HoldoutKeys(order, fraction);
    dev, holdout := [], [];
    PartOfNone(items, key);
    assert Elements(seen[..0]) * holdoutKeys == {} && Elements(seen[..0]) - holdoutKeys == {};
    for i := 0 to |seen|
      invariant SplitBy(items, key, Elements(seen[..i]), holdoutKeys, dev, holdout)
    {
      var g := seen[i];
      NextElement(seen, i);
      SplitGrows(items, key, Elements(seen[..i]), holdoutKeys, g, dev, holdout);
      if g in holdoutKeys {
        holdout := holdout + groups[g];
      } else {
        dev := dev + groups[g];
      }
    }
    assert seen[..|seen|] == seen;
    SplitCopies(items, key, seen, holdoutKeys, dev, holdout);
  }

  lemma SplitCopies<T(!new)>(items: seq<T>, key: T -> string, seen: seq<string>, chosen: set<string>,
                             dev: seq<T>, holdout: seq<T>)
    requires ListsKeys(seen, items, key)
    requires SplitBy(items, key, Elements(seen), chosen, dev, holdout)
    ensures multiset(dev) + multiset(holdout) == multiset(items)
    ensures forall x :: x in holdout <==> x in items && key(x) in chosen
    ensures forall x :: x in dev <==> x in items && key(x) !in chosen
  {
    KeysListed(seen, items, key);
    forall x
      ensures multiset(holdout)[x] == if key(x) in chosen then multiset(items)[x] else 0
      ensures multiset(dev)[x] == if key(x) in chosen then 0 else multiset(items)[x]
    {
      PartCopies(items, key, Elements(seen) * chosen, x);
      PartCopies(items, key, Elements(seen) - chosen, x);
      assert x in multiset(items) ==> x in items;
    }
    forall x ensures x in holdout <==> x in items && key(x) in chosen {
      assert x in holdout <==> x in multiset(holdout);
    }
    forall x ensures x in dev <==> x in items && key(x) !in chosen {
      assert x in dev <==> x in multiset(dev);
    }
  }

  /** The holdout takes the keys it is due: at least one group, and all of them when they are fewer than its share. */
  lemma HoldoutSize(order: seq<string>, fraction: real)
    requires Distinct(order)
    ensures var share := Round(|order| as real * fraction);
      var size := if share < 1 then 1 else share;
      && |HoldoutKeys(order, fraction)| == (if size <= |order| then size else |order|)
      && forall i :: 0 <= i < |order| ==> (order[i] in HoldoutKeys(order, fraction) <==> i < size)
  {
    FirstKeys(order, Min(HoldoutCount(|order|, fraction), |order|));
  }

  lemma FirstKeys(order: seq<string>, n: nat)
    requires Distinct(order) && n <= |order|
    ensures |Elements(order[..n])| == n
    ensures forall i :: 0 <= i < |order| ==> (order[i] in Elements(order[..n]) <==> i < n)
  {
    DistinctSize(order[..n]);
    forall i | 0 <= i < |order| ensures order[i] in order[..n] <==> i < n {
      if i < n {
        assert order[..n][i] == order[i];
      }
    }
  }

  lemma {:induction false} DistinctSize(s: seq<string>)
    requires Distinct(s)
    ensures |Elements(s)| == |s|
  {
    if s != [] {
      DistinctSize(s[..|s| - 1]);
      assert Elements(s) == Elements(s[..|s| - 1]) + {s[|s| - 1]};
    }
  }
}
