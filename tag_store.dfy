/** The tag catalog normalisation of the tag file store (`TagFileStore.normalizedCatalog`). */
module TagStore {
  import opened Wrappers
  import opened Text
  import opened Dedup
  import opened Sorting
  import opened SessionTags

  /** The normalised names of `tags`, in order. */
  function NameKeys(tags: seq<SessionTag>): (r: seq<String>)
    ensures |r| == |tags|
    ensures forall i :: 0 <= i < |tags| ==> r[i] == tags[i].NormalizedName()
  {
    seq(|tags|, i requires 0 <= i < |tags| => tags[i].NormalizedName())
  }

  /** The non-empty normalised names of `tags`: the source's `seen` set. */
  function Seen(tags: seq<SessionTag>): set<String> {
    if tags == [] then {}
    else
      var name := tags[|tags| - 1].NormalizedName();
      Seen(tags[..|tags| - 1]) + (if name == [] then {} else {name})
  }

  /** A name is seen exactly when it is non-empty and normalises some tag. */
  lemma {:induction false} SeenIff(tags: seq<SessionTag>, v: String)
    ensures v in Seen(tags) <==> v != [] && v in NameKeys(tags)
    decreases |tags|
  {
    if tags != [] {
      var init, last := tags[..|tags| - 1], tags[|tags| - 1];
      assert tags == init + [last];
      NameKeysSnoc(init, last);
      SeenIff(init, v);
    }
  }

  /**
   * The custom entries the loop collects: for each non-empty normalised name at its
   * first occurrence that is not a built-in's, a non-built-in tag with that name and
   * the occurrence's id.
   */
  function Customs(tags: seq<SessionTag>): seq<SessionTag> {
    if tags == [] then []
    else
      var init := tags[..|tags| - 1];
      var last := tags[|tags| - 1];
      var name := last.NormalizedName();
      var prev := Customs(init);
      if name == [] || name in Seen(init) || BuiltInNamed(name).Some? then prev
      else prev + [SessionTag(last.id, name, false)]
  }

  /** Order of custom tags: by name. */
  predicate NameLe(a: SessionTag, b: SessionTag) {
    LexLe(a.name, b.name)
  }

  lemma NameLeTotalPreorder()
    ensures IsTotalPreorder(NameLe)
  {
    forall a: SessionTag, b: SessionTag ensures NameLe(a, b) || NameLe(b, a) {
      LexLeTotal(a.name, b.name);
    }
    forall a: SessionTag, b: SessionTag, c: SessionTag | NameLe(a, b) && NameLe(b, c) ensures NameLe(a, c) {
      LexLeTransitive(a.name, b.name, c.name);
    }
  }

  /** What `normalizedCatalog` returns: the built-ins, then the custom entries sorted by name. */
  function Catalog(tags: seq<SessionTag>): seq<SessionTag> {
    BuiltIns + SortBy(Customs(tags), NameLe)
  }

  /** `normalizedCatalog`: the built-ins, then the collected custom entries sorted by name. */
  method NormalizedCatalog(tags: seq<SessionTag>) returns (r: seq<SessionTag>)
    ensures r == Catalog(tags)
  {
    var custom := CollectCustoms(tags);
    custom := SortBy(custom, NameLe);
    r := BuiltIns + custom;
  }

  /** The seen-set loop of `normalizedCatalog`. */
  method CollectCustoms(tags: seq<SessionTag>) returns (custom: seq<SessionTag>)
    ensures custom == Customs(tags)
  {
    var seen: set<String> := {};
    custom := [];
    for i := 0 to |tags|
      invariant custom == Customs(tags[..i])
      invariant seen == Seen(tags[..i])
    {
      var name := tags[i].NormalizedName();
      assert tags[..i + 1] == tags[..i] + [tags[i]];
      CustomsSnoc(tags[..i], tags[i]);
      SeenSnoc(tags[..i], tags[i]);
      if name == [] || name in seen {
        continue;
      }
      seen := seen + {name};
      if BuiltInNamed(name).None? {
        custom := custom + [SessionTag(tags[i].id, name, false)];
      }
    }
    assert tags[..|tags|] == tags;
  }

  lemma SeenSnoc(init: seq<SessionTag>, last: SessionTag)
    ensures var name := last.NormalizedName();
      Seen(init + [last]) == Seen(init) + (if name == [] then {} else {name})
  {
    assert (init + [last])[..|init|] == init;
  }

  lemma NameKeysSnoc(init: seq<SessionTag>, last: SessionTag)
    ensures NameKeys(init + [last]) == NameKeys(init) + [last.NormalizedName()]
  {
  }

  /** One more input tag adds one entry to the customs exactly when its name is new, non-empty and no built-in's. */
  lemma CustomsSnoc(init: seq<SessionTag>, last: SessionTag)
    ensures var name := last.NormalizedName();
      Customs(init + [last]) ==
        if name == [] || name in Seen(init) || BuiltInNamed(name).Some? then Customs(init)
        else Customs(init) + [SessionTag(last.id, name, false)]
  {
    assert (init + [last])[..|init|] == init;
  }

  /** Every custom entry's name has been seen. */
  lemma {:induction false} CustomsNamesSeen(tags: seq<SessionTag>)
    ensures forall i :: 0 <= i < |Customs(tags)| ==> Customs(tags)[i].name in Seen(tags)
    decreases |tags|
  {
    if tags != [] {
      var init, last := tags[..|tags| - 1], tags[|tags| - 1];
      assert tags == init + [last];
      CustomsSnoc(init, last);
      SeenSnoc(init, last);
      CustomsNamesSeen(init);
    }
  }

  /** A well-formed custom entry: a non-built-in tag whose name is normalised, non-empty and no built-in's. */
  predicate IsCustomEntry(t: SessionTag) {
    !t.isBuiltIn && t.name != [] && t.NormalizedName() == t.name && BuiltInNamed(t.name).None?
  }

  /** Every custom entry is well formed. */
  lemma {:induction false} CustomsWellFormed(tags: seq<SessionTag>)
    ensures forall i :: 0 <= i < |Customs(tags)| ==> IsCustomEntry(Customs(tags)[i])
    decreases |tags|
  {
    if tags != [] {
      var init, last := tags[..|tags| - 1], tags[|tags| - 1];
      assert tags == init + [last];
      CustomsSnoc(init, last);
      CustomsWellFormed(init);
      TrimLowerIdempotent(last.name);
    }
  }

  /** The custom entries have pairwise distinct names. */
  lemma {:induction false} CustomsDistinct(tags: seq<SessionTag>)
    ensures forall i, j :: 0 <= i < j < |Customs(tags)| ==> Customs(tags)[i].name != Customs(tags)[j].name
    decreases |tags|
  {
    if tags != [] {
      var init, last := tags[..|tags| - 1], tags[|tags| - 1];
      assert tags == init + [last];
      CustomsSnoc(init, last);
      CustomsDistinct(init);
      CustomsNamesSeen(init);
    }
  }

  /**
   * Each custom entry comes from an input tag with its normalised name and id, and
   * no earlier input tag normalises to that name.
   */
  lemma {:induction false} CustomsOrigin(tags: seq<SessionTag>, i: nat) returns (j: nat)
    requires i < |Customs(tags)|
    ensures j < |tags| && tags[j].id == Customs(tags)[i].id && tags[j].NormalizedName() == Customs(tags)[i].name
    ensures forall k :: 0 <= k < j ==> tags[k].NormalizedName() != Customs(tags)[i].name
    decreases |tags|
  {
    var init, last := tags[..|tags| - 1], tags[|tags| - 1];
    assert tags == init + [last];
    CustomsSnoc(init, last);
    var c := Customs(tags);
    if i < |Customs(init)| {
      j := CustomsOrigin(init, i);
      assert init[j] == tags[j];
      assert forall k :: 0 <= k < j ==> init[k] == tags[k];
    } else {
      j := |init|;
      forall k | 0 <= k < j ensures tags[k].NormalizedName() != c[i].name {
        assert tags[k] == init[k];
        assert NameKeys(init)[k] == init[k].NormalizedName();
        SeenIff(init, c[i].name);
      }
    }
  }

  /** The catalog begins with exactly the built-ins, in order. */
  lemma CatalogStartsWithBuiltIns(tags: seq<SessionTag>)
    ensures |Catalog(tags)| >= |BuiltIns| && Catalog(tags)[..|BuiltIns|] == BuiltIns
  {
  }

  /** The custom part of the catalog is sorted by name and is exactly the custom entries, rearranged. */
  lemma CatalogCustomsSorted(tags: seq<SessionTag>)
    ensures var rest := Catalog(tags)[|BuiltIns|..];
      SortedBy(rest, NameLe) && multiset(rest) == multiset(Customs(tags))
  {
    NameLeTotalPreorder();
    SortBySorted(Customs(tags), NameLe);
    assert Catalog(tags)[|BuiltIns|..] == SortBy(Customs(tags), NameLe);
  }

  /** The built-ins' normalised names are pairwise distinct. */
  lemma BuiltInsNamesDistinct(i: nat, j: nat)
    requires i < j < |BuiltIns|
    ensures BuiltIns[i].NormalizedName() != BuiltIns[j].NormalizedName()
  {
    BuiltInsNormalized(i);
    BuiltInsNormalized(j);
    BuiltInsShape();
    assert BuiltInNames()[i] == BuiltIns[i].name && BuiltInNames()[j] == BuiltIns[j].name;
  }

  /** A custom entry never shares its normalised name with a built-in. */
  lemma CustomEntryNotBuiltIn(t: SessionTag, i: nat)
    requires IsCustomEntry(t) && i < |BuiltIns|
    ensures BuiltIns[i].NormalizedName() != t.NormalizedName()
  {
    BuiltInsNormalized(i);
    assert BuiltInNames()[i] == BuiltIns[i].name;
  }

  /** Entries with distinct normalised names within and across two sequences have distinct names together. */
  lemma ConcatNamesDistinct(a: seq<SessionTag>, b: seq<SessionTag>)
    requires forall i, j :: 0 <= i < j < |a| ==> a[i].NormalizedName() != a[j].NormalizedName()
    requires forall i, j :: 0 <= i < j < |b| ==> b[i].NormalizedName() != b[j].NormalizedName()
    requires forall i, k :: 0 <= i < |a| && 0 <= k < |b| ==> a[i].NormalizedName() != b[k].NormalizedName()
    ensures forall i, j :: 0 <= i < j < |a + b| ==> (a + b)[i].NormalizedName() != (a + b)[j].NormalizedName()
  {
    forall i, j | 0 <= i < j < |a + b| ensures (a + b)[i].NormalizedName() != (a + b)[j].NormalizedName() {
      if j < |a| {
      } else if i >= |a| {
        assert (a + b)[i] == b[i - |a|] && (a + b)[j] == b[j - |a|];
      } else {
        assert (a + b)[j] == b[j - |a|];
      }
    }
  }

  /** No two catalog entries share a normalised name. */
  lemma CatalogNamesDistinct(tags: seq<SessionTag>)
    ensures var cat := Catalog(tags);
      forall i, j :: 0 <= i < j < |cat| ==> cat[i].NormalizedName() != cat[j].NormalizedName()
  {
    var c := Customs(tags);
    var sorted := SortBy(c, NameLe);
    CustomsWellFormed(tags);
    CustomsDistinct(tags);
    forall k | 0 <= k < |sorted| ensures IsCustomEntry(sorted[k]) {
      assert sorted[k] in multiset(c);
    }
    forall i, j | 0 <= i < j < |sorted| ensures sorted[i].NormalizedName() != sorted[j].NormalizedName() {
      SortedDistinctNames(c, sorted, i, j);
      assert IsCustomEntry(sorted[i]) && IsCustomEntry(sorted[j]);
    }
    forall i, j | 0 <= i < j < |BuiltIns| ensures BuiltIns[i].NormalizedName() != BuiltIns[j].NormalizedName() {
      BuiltInsNamesDistinct(i, j);
    }
    forall i, k | 0 <= i < |BuiltIns| && 0 <= k < |sorted| ensures BuiltIns[i].NormalizedName() != sorted[k].NormalizedName() {
      CustomEntryNotBuiltIn(sorted[k], i);
    }
    ConcatNamesDistinct(BuiltIns, sorted);
  }

  /** A rearrangement of entries with distinct names has distinct names. */
  lemma SortedDistinctNames(c: seq<SessionTag>, sorted: seq<SessionTag>, i: nat, j: nat)
    requires multiset(sorted) == multiset(c) && i < j < |sorted|
    requires forall a, b :: 0 <= a < b < |c| ==> c[a].name != c[b].name
    ensures sorted[i].name != sorted[j].name
  {
    if sorted[i].name == sorted[j].name {
      assert sorted[i] in multiset(c) && sorted[j] in multiset(c);
      var a :| 0 <= a < |c| && c[a] == sorted[i];
      var b :| 0 <= b < |c| && c[b] == sorted[j];
      if a == b {
        // the same entry twice in `sorted` needs two copies in `c`
        assert sorted[i] == sorted[j];
        MultisetTwoIndices(sorted, i, j);
        SingleOccurrence(c, a);
      }
    }
  }

  lemma MultisetTwoIndices<T>(s: seq<T>, i: nat, j: nat)
    requires i < j < |s| && s[i] == s[j]
    ensures multiset(s)[s[i]] >= 2
  {
    assert s == s[..i] + [s[i]] + s[i + 1..j] + [s[j]] + s[j + 1..];
  }

  lemma SingleOccurrence(c: seq<SessionTag>, a: nat)
    requires a < |c|
    requires forall x, y :: 0 <= x < y < |c| ==> c[x].name != c[y].name
    ensures multiset(c)[c[a]] == 1
  {
    assert c == c[..a] + [c[a]] + c[a + 1..];
    assert c[a] !in c[..a] by {
      forall x | 0 <= x < a ensures c[..a][x] != c[a] { assert c[..a][x] == c[x]; }
    }
    var tail := c[a + 1..];
    assert c[a] !in tail by {
      forall x | 0 <= x < |tail| ensures tail[x] != c[a] { assert tail[x] == c[a + 1 + x]; }
    }
    assert multiset(c[..a])[c[a]] == 0 && multiset(tail)[c[a]] == 0;
  }

  /** Tags that all normalise to built-in names contribute no custom entries. */
  lemma {:induction false} CustomsOfBuiltInNamed(pre: seq<SessionTag>)
    requires forall k :: 0 <= k < |pre| ==> BuiltInNamed(pre[k].NormalizedName()).Some?
    ensures Customs(pre) == []
    decreases |pre|
  {
    if pre != [] {
      var init, last := pre[..|pre| - 1], pre[|pre| - 1];
      assert pre == init + [last];
      CustomsSnoc(init, last);
      CustomsOfBuiltInNamed(init);
    }
  }

  /**
   * Appending well-formed custom entries with distinct, unseen names appends them
   * unchanged to the customs.
   */
  lemma {:induction false} CustomsAppendFresh(pre: seq<SessionTag>, more: seq<SessionTag>)
    requires forall k :: 0 <= k < |more| ==> IsCustomEntry(more[k]) && more[k].name !in Seen(pre)
    requires forall i, j :: 0 <= i < j < |more| ==> more[i].name != more[j].name
    ensures Customs(pre + more) == Customs(pre) + more
    decreases |more|
  {
    if more == [] {
      assert pre + more == pre;
    } else {
      var init, last := more[..|more| - 1], more[|more| - 1];
      assert more == init + [last];
      assert pre + more == (pre + init) + [last];
      CustomsAppendFresh(pre, init);
      CustomsSnoc(pre + init, last);
      forall k | 0 <= k < |init| ensures init[k].NormalizedName() != last.name {
        assert init[k] == more[k];
      }
      SeenAppendUnseen(pre, init, last.name);
    }
  }

  /** A name no appended tag normalises to stays unseen. */
  lemma {:induction false} SeenAppendUnseen(pre: seq<SessionTag>, more: seq<SessionTag>, v: String)
    requires v !in Seen(pre)
    requires forall k :: 0 <= k < |more| ==> more[k].NormalizedName() != v
    ensures v !in Seen(pre + more)
    decreases |more|
  {
    if more == [] {
      assert pre + more == pre;
    } else {
      var init, last := more[..|more| - 1], more[|more| - 1];
      assert more == init + [last];
      assert pre + more == (pre + init) + [last];
      SeenAppendUnseen(pre, init, v);
      SeenSnoc(pre + init, last);
    }
  }

  /** The built-ins contribute no custom entries, and their seen names are exactly the built-in names. */
  lemma BuiltInsContributeNothing(v: String)
    ensures Customs(BuiltIns) == []
    ensures v in Seen(BuiltIns) ==> BuiltInNamed(v).Some?
  {
    forall k | 0 <= k < |BuiltIns| ensures BuiltInNamed(BuiltIns[k].NormalizedName()).Some? {
      BuiltInsNormalized(k);
      assert BuiltInNames()[k] == BuiltIns[k].name;
    }
    CustomsOfBuiltInNamed(BuiltIns);
    SeenIff(BuiltIns, v);
    if v in Seen(BuiltIns) {
      var k :| 0 <= k < |BuiltIns| && NameKeys(BuiltIns)[k] == v;
      assert BuiltInNamed(BuiltIns[k].NormalizedName()).Some?;
    }
  }

  /** Normalising a normalised catalog changes nothing. */
  lemma CatalogIdempotent(tags: seq<SessionTag>)
    ensures Catalog(Catalog(tags)) == Catalog(tags)
  {
    var c := Customs(tags);
    var sorted := SortBy(c, NameLe);
    CustomsWellFormed(tags);
    CustomsDistinct(tags);
    forall k | 0 <= k < |sorted| ensures IsCustomEntry(sorted[k]) && sorted[k].name !in Seen(BuiltIns) {
      assert sorted[k] in multiset(c);
      BuiltInsContributeNothing(sorted[k].name);
    }
    forall i, j | 0 <= i < j < |sorted| ensures sorted[i].name != sorted[j].name {
      SortedDistinctNames(c, sorted, i, j);
    }
    BuiltInsContributeNothing([]);
    CustomsAppendFresh(BuiltIns, sorted);
    assert Customs(Catalog(tags)) == sorted;
    CatalogCustomsSorted(tags);
    assert Catalog(tags)[|BuiltIns|..] == sorted;
    SortBySortedIdentity(sorted, NameLe);
  }
}
