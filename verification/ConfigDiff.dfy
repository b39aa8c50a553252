/**
 onedriveui/config.py: `changed_keys`, the dotted keys in which two rendered documents differ.
 */
module ConfigDiff {
  import opened Basics
  import opened ConfigNames
  import opened ConfigCodec
  import opened ConfigSchema
  import R = ConfigRules
  import C = ConfigClamp

  // ---------------------------------------------------------------------------------------------
  // Which keys have changed

  function IdOf(e: Entry): Json {
    Get(Obj(e.scalars), Id)
  }

  function Ids(entries: seq<Entry>): (ids: seq<Json>)
    ensures |ids| == |entries| && forall i :: 0 <= i < |ids| ==> ids[i] == IdOf(entries[i])
  {
    if entries == [] then [] else Ids(entries[..|entries| - 1]) + [IdOf(entries[|entries| - 1])]
  }

  /** The account of an id; of several, the last, as in a dictionary. */
  function Lookup(entries: seq<Entry>, id: Json): Option<Entry> {
    if entries == [] then None
    else if IdOf(entries[|entries| - 1]) == id then Some(entries[|entries| - 1])
    else Lookup(entries[..|entries| - 1], id)
  }

  predicate Differs(a: Section, b: Section, name: Name) {
    name in b && !(name in a && a[name] == b[name])
  }

  predicate SectionChanged(head: Name, a: Section, b: Section, key: Dotted) {
    key.Key? && key.head == head && Differs(a, b, key.name)
  }

  predicate PartChanged(head: Name, a: Entry, b: Entry, key: Dotted) {
    SectionChanged(head, Part(a, head), Part(b, head), key)
  }

  predicate AccountChanged(a: Entry, b: Entry, key: Dotted) {
    || SectionChanged(AccountHead, a.scalars, b.scalars, key)
    || (key.Key? && key.head in b.sections && PartChanged(key.head, a, b, key))
  }

  /** An account that is in both documents has changed in this key. */
  predicate SharedChanged(was: seq<Entry>, now: seq<Entry>, id: Json, key: Dotted)
  {
    Lookup(was, id).Some? && Lookup(now, id).Some? && AccountChanged(Lookup(was, id).value, Lookup(now, id).value, key)
  }

  /** One of the first accounts is in both documents and has changed in this key. */
  predicate SomeChanged(was: seq<Entry>, now: seq<Entry>, n: nat, key: Dotted)
    requires n <= |now|
  {
    exists j :: 0 <= j < n && SharedChanged(was, now, IdOf(now[j]), key)
  }

  predicate IsChanged(before: Document, after: Document, key: Dotted) {
    || (key == Top(SchemaVersion) && before.schemaVersion != after.schemaVersion)
    || SectionChanged(AppHead, before.app, after.app, key)
    || SectionChanged(AdvancedHead, before.advanced, after.advanced, key)
    || (key == Top(Accounts) && Ids(before.accounts) != Ids(after.accounts))
    || SomeChanged(before.accounts, after.accounts, |after.accounts|, key)
  }

  predicate Unique<T(==)>(keys: seq<T>) {
    forall i, j :: 0 <= i < j < |keys| ==> keys[i] != keys[j]
  }

  ghost predicate NothingReported(before: Document, after: Document) {
    forall key :: !IsChanged(before, after, key)
  }

  // ---------------------------------------------------------------------------------------------
  // When nothing is reported

  /** Every section has exactly the keys of its schema, as `to_dict` renders it. */
  predicate EntryShaped(layout: Layout, e: Entry) {
    && e.scalars.Keys == layout.scalars.Keys && e.sections.Keys == layout.parts.Keys
    && forall h :: h in layout.parts ==> e.sections[h].Keys == layout.parts[h].Keys
  }

  predicate Shaped(layout: Layout, d: Document) {
    && d.app.Keys == layout.app.Keys && d.advanced.Keys == layout.advanced.Keys
    && (forall i :: 0 <= i < |d.accounts| ==> EntryShaped(layout, d.accounts[i]))
  }

  lemma SameWhenNothingDiffers(head: Name, a: Section, b: Section)
    requires a.Keys == b.Keys
    ensures a == b <==> forall key :: !SectionChanged(head, a, b, key)
  {
    if forall key :: !SectionChanged(head, a, b, key) {
      forall name | name in b ensures a[name] == b[name] {
        assert !SectionChanged(head, a, b, Key(head, name));
      }
    }
  }

  lemma SameAccount(layout: Layout, a: Entry, b: Entry)
    requires EntryShaped(layout, a) && EntryShaped(layout, b)
    ensures a == b <==> forall key :: !AccountChanged(a, b, key)
  {
    SameWhenNothingDiffers(AccountHead, a.scalars, b.scalars);
    if forall key :: !AccountChanged(a, b, key) {
      forall key ensures !SectionChanged(AccountHead, a.scalars, b.scalars, key) {
        assert !AccountChanged(a, b, key);
      }
      forall head | head in b.sections ensures a.sections[head] == b.sections[head] {
        var x, y := a.sections[head], b.sections[head];
        SameWhenNothingDiffers(head, x, y);
        forall key ensures !SectionChanged(head, x, y, key) {
          assert !AccountChanged(a, b, key);
        }
      }
      assert a.sections == b.sections;
    }
  }

  /** The entry is the last of its id, as which a dictionary keeps it. */
  predicate LastOfId(entries: seq<Entry>, i: nat)
    requires i < |entries|
  {
    forall k :: i < k < |entries| ==> IdOf(entries[k]) != IdOf(entries[i])
  }

  lemma {:induction false} LookupIff(entries: seq<Entry>, i: nat)
    requires i < |entries| && LastOfId(entries, i)
    ensures Lookup(entries, IdOf(entries[i])) == Some(entries[i])
  {
    if i < |entries| - 1 {
      LookupIff(entries[..|entries| - 1], i);
    }
  }

  lemma {:induction false} LookupFinds(entries: seq<Entry>, id: Json) returns (i: nat)
    requires Lookup(entries, id).Some?
    ensures i < |entries| && LastOfId(entries, i) && IdOf(entries[i]) == id && Lookup(entries, id) == Some(entries[i])
  {
    i := |entries| - 1;
    if IdOf(entries[i]) != id {
      i := LookupFinds(entries[..i], id);
    }
  }

  /** The two versions of an account have different values in one place. */
  ghost predicate ValueDiffers(a: Entry, b: Entry, head: Name, name: Name) {
    || (head == AccountHead && name in a.scalars && name in b.scalars && a.scalars[name] != b.scalars[name])
    || (head in a.sections && head in b.sections && name in a.sections[head] && name in b.sections[head]
        && a.sections[head][name] != b.sections[head][name])
  }

  /** Two entries are the last of one id in their documents, and have different values in one place. */
  ghost predicate SharedAt(was: seq<Entry>, now: seq<Entry>, i: nat, j: nat, head: Name, name: Name) {
    && i < |was| && j < |now| && LastOfId(was, i) && LastOfId(now, j)
    && IdOf(was[i]) == IdOf(now[j]) && ValueDiffers(was[i], now[j], head, name)
  }

  lemma ReportedIsShared(layout: Layout, was: seq<Entry>, now: seq<Entry>, head: Name, name: Name)
    returns (i: nat, j: nat)
    requires forall i :: 0 <= i < |was| ==> EntryShaped(layout, was[i])
    requires forall i :: 0 <= i < |now| ==> EntryShaped(layout, now[i])
    requires SomeChanged(was, now, |now|, Key(head, name))
    ensures SharedAt(was, now, i, j, head, name)
  {
    hide LastOfId, Lookup, EntryShaped, AccountChanged, ValueDiffers, IdOf;
    var n :| 0 <= n < |now| && SharedChanged(was, now, IdOf(now[n]), Key(head, name));
    i := LookupFinds(was, IdOf(now[n]));
    j := LookupFinds(now, IdOf(now[n]));
    ValueDiffersIff(layout, was[i], now[j], head, name);
  }

  lemma SharedIsReported(layout: Layout, was: seq<Entry>, now: seq<Entry>, i: nat, j: nat, head: Name, name: Name)
    requires SharedAt(was, now, i, j, head, name)
    requires EntryShaped(layout, was[i]) && EntryShaped(layout, now[j])
    ensures SomeChanged(was, now, |now|, Key(head, name))
  {
    hide LastOfId, Lookup, EntryShaped, AccountChanged, ValueDiffers, IdOf;
    LookupIff(was, i);
    LookupIff(now, j);
    ValueDiffersIff(layout, was[i], now[j], head, name);
    assert SharedChanged(was, now, IdOf(now[j]), Key(head, name));
  }

  lemma ValueDiffersIff(layout: Layout, a: Entry, b: Entry, head: Name, name: Name)
    requires EntryShaped(layout, a) && EntryShaped(layout, b)
    ensures AccountChanged(a, b, Key(head, name)) <==> ValueDiffers(a, b, head, name)
  {
  }

  /**
   Which keys are reported of two rendered documents: a key of a section exactly when the value under
   that key of that section differs, in an account that is the last of its id in both.
   */
  lemma KeyReportedIff(layout: Layout, before: Document, after: Document, key: Dotted)
    requires Shaped(layout, before) && Shaped(layout, after)
    ensures IsChanged(before, after, key) <==>
      match key
      case Top(name) =>
        || (name == SchemaVersion && before.schemaVersion != after.schemaVersion)
        || (name == Accounts && Ids(before.accounts) != Ids(after.accounts))
      case Key(head, name) =>
        || (head == AppHead && name in after.app && before.app[name] != after.app[name])
        || (head == AdvancedHead && name in after.advanced && before.advanced[name] != after.advanced[name])
        || exists i: nat, j: nat :: SharedAt(before.accounts, after.accounts, i, j, head, name)
  {
    hide Ids, SharedAt, EntryShaped;
    var was, now := before.accounts, after.accounts;
    match key {
      case Top(_) =>
        assert !SomeChanged(was, now, |now|, key);
      case Key(head, name) =>
        hide SomeChanged;
        if SomeChanged(was, now, |now|, key) {
          var i, j := ReportedIsShared(layout, was, now, head, name);
        }
        forall i: nat, j: nat | SharedAt(was, now, i, j, head, name) ensures SomeChanged(was, now, |now|, key) {
          SharedInRange(was, now, i, j, head, name);
          SharedIsReported(layout, was, now, i, j, head, name);
        }
    }
  }

  lemma SharedInRange(was: seq<Entry>, now: seq<Entry>, i: nat, j: nat, head: Name, name: Name)
    requires SharedAt(was, now, i, j, head, name)
    ensures i < |was| && j < |now|
  {
  }

  lemma {:induction false} LookupIsThere(entries: seq<Entry>, id: Json)
    ensures var found := Lookup(entries, id);
      found.Some? ==> exists i :: 0 <= i < |entries| && entries[i] == found.value && IdOf(entries[i]) == id
    ensures Lookup(entries, id).None? ==> forall i :: 0 <= i < |entries| ==> IdOf(entries[i]) != id
  {
    if entries != [] && IdOf(entries[|entries| - 1]) != id {
      LookupIsThere(entries[..|entries| - 1], id);
    }
  }

  /** The same ids in the same order, and under each of them the same account, the last one. */
  predicate SameAccounts(was: seq<Entry>, now: seq<Entry>) {
    Ids(was) == Ids(now) && forall j :: 0 <= j < |now| ==> Lookup(was, IdOf(now[j])) == Lookup(now, IdOf(now[j]))
  }

  lemma SharedSame(layout: Layout, was: seq<Entry>, now: seq<Entry>, j: nat)
    requires forall i :: 0 <= i < |was| ==> EntryShaped(layout, was[i])
    requires forall i :: 0 <= i < |now| ==> EntryShaped(layout, now[i])
    requires Ids(was) == Ids(now) && j < |now|
    ensures Lookup(was, IdOf(now[j])) == Lookup(now, IdOf(now[j])) <==> NoneShared(was, now, IdOf(now[j]))
  {
    var id := IdOf(now[j]);
    assert Ids(was)[j] == Ids(now)[j];
    LookupIsThere(was, id);
    LookupIsThere(now, id);
    hide EntryShaped, AccountChanged, Lookup;
    SameAccount(layout, Lookup(was, id).value, Lookup(now, id).value);
    var a, b := Lookup(was, id).value, Lookup(now, id).value;
    if NoneShared(was, now, id) {
      forall key ensures !AccountChanged(a, b, key) {
        assert !SharedChanged(was, now, id, key);
      }
    }
  }

  /** Nothing changed, part by part. */
  ghost predicate Unchanged(before: Document, after: Document) {
    && before.schemaVersion == after.schemaVersion && Ids(before.accounts) == Ids(after.accounts)
    && (forall key :: !SectionChanged(AppHead, before.app, after.app, key))
    && (forall key :: !SectionChanged(AdvancedHead, before.advanced, after.advanced, key))
    && (forall j :: 0 <= j < |after.accounts| ==> NoneShared(before.accounts, after.accounts, IdOf(after.accounts[j])))
  }

  ghost predicate NoneShared(was: seq<Entry>, now: seq<Entry>, id: Json) {
    forall key :: !SharedChanged(was, now, id, key)
  }

  lemma NothingReportedParts(before: Document, after: Document)
    ensures NothingReported(before, after) <==> Unchanged(before, after)
  {
    hide SectionChanged, SharedChanged;
    var was, now := before.accounts, after.accounts;
    if NothingReported(before, after) {
      assert !IsChanged(before, after, Top(SchemaVersion)) && !IsChanged(before, after, Top(Accounts));
      forall key
        ensures !SectionChanged(AppHead, before.app, after.app, key)
        ensures !SectionChanged(AdvancedHead, before.advanced, after.advanced, key)
      {
        assert !IsChanged(before, after, key);
      }
      forall j, key | 0 <= j < |now| ensures !SharedChanged(was, now, IdOf(now[j]), key) {
        assert !IsChanged(before, after, key);
      }
    }
    if Unchanged(before, after) {
      forall key ensures !SomeChanged(was, now, |now|, key) {
        assert forall j :: 0 <= j < |now| ==> NoneShared(was, now, IdOf(now[j]));
      }
    }
  }

  /**
   Nothing is reported exactly when the documents agree outside the accounts, have the same ids in the
   same order, and each id stands for the same account, the last of its name.
   */
  lemma NothingReportedIff(layout: Layout, before: Document, after: Document)
    requires Shaped(layout, before) && Shaped(layout, after)
    ensures NothingReported(before, after) <==>
      && before.schemaVersion == after.schemaVersion && before.app == after.app && before.advanced == after.advanced
      && SameAccounts(before.accounts, after.accounts)
  {
    hide NothingReported, EntryShaped, NoneShared, Lookup, SectionChanged;
    NothingReportedParts(before, after);
    SameWhenNothingDiffers(AppHead, before.app, after.app);
    SameWhenNothingDiffers(AdvancedHead, before.advanced, after.advanced);
    var was, now := before.accounts, after.accounts;
    if Ids(was) == Ids(now) {
      forall j | 0 <= j < |now|
        ensures Lookup(was, IdOf(now[j])) == Lookup(now, IdOf(now[j])) <==> NoneShared(was, now, IdOf(now[j]))
      {
        SharedSame(layout, was, now, j);
      }
    }
  }

  // ---------------------------------------------------------------------------------------------
  // Which changes show

  /** With distinct ids an account is found under its own id. */
  lemma {:induction false} LookupOwn(entries: seq<Entry>, i: nat)
    requires i < |entries| && Unique(Ids(entries))
    ensures Lookup(entries, IdOf(entries[i])) == Some(entries[i])
  {
    var n := |entries| - 1;
    if i < n {
      assert Ids(entries)[i] != Ids(entries)[n];
      assert Ids(entries[..n]) == Ids(entries)[..n];
      LookupOwn(entries[..n], i);
    }
  }

  /** No key has changed exactly when the documents are equal. */
  lemma NothingChangedIffEqual(layout: Layout, before: Document, after: Document)
    requires Shaped(layout, before) && Shaped(layout, after) && Unique(Ids(after.accounts))
    ensures before == after <==> NothingReported(before, after)
  {
    NothingReportedIff(layout, before, after);
    hide Shaped, NothingReported, Unique, Lookup;
    if SameAccounts(before.accounts, after.accounts) {
      forall j | 0 <= j < |after.accounts| ensures before.accounts[j] == after.accounts[j] {
        assert Ids(before.accounts)[j] == Ids(after.accounts)[j];
        LookupOwn(before.accounts, j);
        LookupOwn(after.accounts, j);
      }
      assert |before.accounts| == |Ids(before.accounts)| == |after.accounts|;
    }
  }

  lemma {:induction false} LookupElsewhere(entries: seq<Entry>, i: nat, e: Entry, id: Json)
    requires i < |entries| && IdOf(entries[i]) != id && IdOf(e) != id
    ensures Lookup(entries[i := e], id) == Lookup(entries, id)
  {
    var n := |entries| - 1;
    if IdOf(entries[n]) != id {
      if i < n {
        LookupElsewhere(entries[..n], i, e, id);
        assert entries[i := e][..n] == entries[..n][i := e];
      } else {
        assert entries[i := e][..n] == entries[..n];
      }
    }
  }

  /** Only the last account of an id is ever looked at. */
  lemma {:induction false} LookupShadowed(entries: seq<Entry>, i: nat, j: nat, e: Entry)
    requires i < j < |entries| && IdOf(entries[i]) == IdOf(entries[j]) == IdOf(e)
    ensures Lookup(entries[i := e], IdOf(e)) == Lookup(entries, IdOf(e))
  {
    var n := |entries| - 1;
    if IdOf(entries[n]) != IdOf(e) {
      LookupShadowed(entries[..n], i, j, e);
      assert entries[i := e][..n] == entries[..n][i := e];
    }
  }

  /** With one id twice, whatever becomes of the first of the two is not reported. */
  lemma RepeatedIdHidesChange(layout: Layout, after: Document, i: nat, j: nat, e: Entry)
    requires Shaped(layout, after) && EntryShaped(layout, e)
    requires i < j < |after.accounts| && IdOf(after.accounts[i]) == IdOf(after.accounts[j]) == IdOf(e)
    ensures NothingReported(after.(accounts := after.accounts[i := e]), after)
  {
    ShadowedSame(after.accounts, i, j, e);
    hide SameAccounts, EntryShaped, NothingReported;
    NothingReportedIff(layout, after.(accounts := after.accounts[i := e]), after);
  }

  lemma ShadowedSame(now: seq<Entry>, i: nat, j: nat, e: Entry)
    requires i < j < |now| && IdOf(now[i]) == IdOf(now[j]) == IdOf(e)
    ensures SameAccounts(now[i := e], now)
  {
    hide Lookup;
    forall k | 0 <= k < |now| ensures Lookup(now[i := e], IdOf(now[k])) == Lookup(now, IdOf(now[k])) {
      if IdOf(now[k]) == IdOf(e) {
        LookupShadowed(now, i, j, e);
      } else {
        LookupElsewhere(now, i, e, IdOf(now[k]));
      }
    }
    assert Ids(now[i := e]) == Ids(now);
  }

  /** Every document that differs from this one is reported against it. */
  ghost predicate EveryChangeShows(layout: Layout, after: Document) {
    forall before :: DocumentFits(layout, before) && NothingReported(before, after) ==> before == after
  }

  /** Every change shows exactly when the ids of the new document are distinct. */
  lemma EveryChangeShowsIff(layout: Layout, after: Document)
    requires LayoutOk(layout) && DocumentFits(layout, after)
    ensures EveryChangeShows(layout, after) <==> Unique(Ids(after.accounts))
  {
    hide DocumentFits, NothingReported, LayoutOk;
    if Unique(Ids(after.accounts)) {
      FittingIsShaped(layout, after);
      hide Shaped;
      forall before | DocumentFits(layout, before) && NothingReported(before, after) ensures before == after {
        FittingIsShaped(layout, before);
        NothingChangedIffEqual(layout, before, after);
      }
    } else {
      var ids := Ids(after.accounts);
      var i, j :| 0 <= i < j < |ids| && ids[i] == ids[j];
      var before := HiddenChange(layout, after, i, j);
    }
  }

  lemma HiddenChange(layout: Layout, after: Document, i: nat, j: nat) returns (before: Document)
    requires LayoutOk(layout) && DocumentFits(layout, after)
    requires i < j < |after.accounts| && IdOf(after.accounts[i]) == IdOf(after.accounts[j])
    ensures DocumentFits(layout, before) && NothingReported(before, after) && before != after
  {
    FittingIsShaped(layout, after);
    hide Shaped, NothingReported, SectionFits, EntryFits, LayoutOk;
    var e := Renamed(layout, after.accounts[i]);
    RepeatedIdHidesChange(layout, after, i, j, e);
    before := after.(accounts := after.accounts[i := e]);
    assert before.accounts[i] != after.accounts[i];
  }

  lemma FittingIsShaped(layout: Layout, d: Document)
    requires DocumentFits(layout, d)
    ensures Shaped(layout, d)
  {
    forall i | 0 <= i < |d.accounts| ensures EntryShaped(layout, d.accounts[i]) {
      assert EntryFits(layout, d.accounts[i]);
    }
  }

  /** The same account with another remote. */
  lemma Renamed(layout: Layout, e: Entry) returns (r: Entry)
    requires LayoutOk(layout) && EntryFits(layout, e)
    ensures EntryFits(layout, r) && EntryShaped(layout, r) && r != e && IdOf(r) == IdOf(e)
  {
    assert Fits(layout.scalars[Remote], e.scalars[Remote]);
    var v := Str(e.scalars[Remote].s + "x");
    assert |v.s| != |e.scalars[Remote].s|;
    r := e.(scalars := e.scalars[Remote := v]);
    assert r.scalars[Remote] != e.scalars[Remote];
  }

  lemma AcceptedIds(d: Document, world: R.World)
    requires C.Valid(RulesOf(d), world)
    ensures Unique(Ids(d.accounts))
  {
    hide R.Overflows, R.Join, R.AccountsProblems, AppOf, AdvancedOf;
    var checks := R.Checks(RulesOf(d), world);
    C.EmptyJoin(checks);
    assert checks[3] == [];
    var seen := SeenAll(d.accounts);
    C.AcceptedNames(seen, world);
    hide R.Checks, RulesOf;
    forall i, j | 0 <= i < j < |d.accounts| ensures IdOf(d.accounts[i]) != IdOf(d.accounts[j]) {
      assert seen[i].id != seen[j].id;
    }
  }

  /** Of what `validate` lets `save` write, every change shows. */
  lemma SavedChangesShow(after: Document, world: R.World)
    requires DocumentFits(LAYOUT, after) && C.Valid(RulesOf(after), world)
    ensures EveryChangeShows(LAYOUT, after)
  {
    hide LAYOUT, LayoutOk, DocumentFits, RulesOf, C.Valid, EveryChangeShows, Unique;
    LayoutIsOk();
    AcceptedIds(after, world);
    EveryChangeShowsIff(LAYOUT, after);
  }

  // ---------------------------------------------------------------------------------------------
  // changed_keys

  /** The keys of one section that differ. */
  method DiffSection(head: Name, a: Section, b: Section) returns (keys: seq<Dotted>)
    ensures forall key :: key in keys <==> SectionChanged(head, a, b, key)
  {
    keys := [];
    var rest := b.Keys;
    while rest != {}
      invariant rest <= b.Keys
      invariant forall key :: key in keys ==> SectionChanged(head, a, b, key)
      invariant forall n :: n in b && n !in rest && Differs(a, b, n) ==> Key(head, n) in keys
      decreases rest
    {
      var n := AnyOf(rest);
      rest := rest - {n};
      if Differs(a, b, n) {
        keys := keys + [Key(head, n)];
      }
    }
  }

  method DiffAccount(a: Entry, b: Entry) returns (keys: seq<Dotted>)
    ensures forall key :: key in keys <==> AccountChanged(a, b, key)
  {
    hide SectionChanged;
    keys := DiffSection(AccountHead, a.scalars, b.scalars);
    ghost var first := keys;
    var rest := b.sections.Keys;
    while rest != {}
      invariant rest <= b.sections.Keys
      invariant forall key :: key in keys <==> key in first || SomePart(b.sections.Keys - rest, a, b, key)
      decreases rest
    {
      var head := AnyOf(rest);
      var more := DiffSection(head, Part(a, head), Part(b, head));
      MoreParts(b.sections.Keys, rest, head, a, b);
      rest := rest - {head};
      keys := keys + more;
    }
    assert b.sections.Keys - rest == b.sections.Keys;
    forall key ensures key in keys <==> AccountChanged(a, b, key) {
      WholeAccount(a, b, key);
    }
  }

  ghost predicate SomePart(heads: set<Name>, a: Entry, b: Entry, key: Dotted) {
    exists head :: head in heads && PartChanged(head, a, b, key)
  }

  lemma MoreParts(all: set<Name>, rest: set<Name>, head: Name, a: Entry, b: Entry)
    requires rest <= all && head in rest
    ensures forall key ::
      SomePart(all - (rest - {head}), a, b, key) <==> SomePart(all - rest, a, b, key) || PartChanged(head, a, b, key)
  {
    hide PartChanged;
    assert all - (rest - {head}) == (all - rest) + {head};
  }

  lemma WholeAccount(a: Entry, b: Entry, key: Dotted)
    ensures AccountChanged(a, b, key)
      <==> SectionChanged(AccountHead, a.scalars, b.scalars, key) || SomePart(b.sections.Keys, a, b, key)
  {
    hide Differs, Part;
  }

  /** Keep the first of every key. */
  method Dedupe(keys: seq<Dotted>) returns (once: seq<Dotted>)
    ensures Unique(once) && forall key :: key in once <==> key in keys
  {
    var seen: set<Dotted> := {};
    once := [];
    var i := 0;
    while i < |keys|
      invariant i <= |keys| && Unique(once)
      invariant forall key :: key in seen <==> key in once
      invariant forall key :: key in once <==> key in keys[..i]
    {
      if keys[i] !in seen {
        seen, once := seen + {keys[i]}, once + [keys[i]];
      }
      i := i + 1;
    }
    assert keys[..i] == keys;
  }

  method ChangedKeys(before: Document, after: Document) returns (keys: seq<Dotted>)
    ensures Unique(keys) && forall key :: key in keys <==> IsChanged(before, after, key)
  {
    hide SectionChanged, AccountChanged;
    keys := if before.schemaVersion != after.schemaVersion then [Top(SchemaVersion)] else [];
    var app := DiffSection(AppHead, before.app, after.app);
    var advanced := DiffSection(AdvancedHead, before.advanced, after.advanced);
    keys := keys + app + advanced + if Ids(before.accounts) != Ids(after.accounts) then [Top(Accounts)] else [];
    var shared := DiffShared(before.accounts, after.accounts);
    keys := Dedupe(keys + shared);
  }

  /** The accounts that both documents have, each compared once. */
  method DiffShared(was: seq<Entry>, now: seq<Entry>) returns (keys: seq<Dotted>)
    ensures forall key :: key in keys <==> SomeChanged(was, now, |now|, key)
  {
    hide AccountChanged, Lookup;
    keys := [];
    var done: set<Json> := {};
    var i := 0;
    while i < |now|
      invariant i <= |now|
      invariant forall id :: id in done <==> exists j :: 0 <= j < i && IdOf(now[j]) == id
      invariant forall key :: key in keys <==> SomeChanged(was, now, i, key)
    {
      var id := IdOf(now[i]);
      if id !in done {
        done := done + {id};
        LookupIsThere(was, id);
        LookupIsThere(now, id);
        var x, y := Lookup(was, id), Lookup(now, id);
        if x.Some? {
          var more := DiffAccount(x.value, y.value);
          keys := keys + more;
        }
      }
      i := i + 1;
    }
  }
}
