/**
 onedriveui/config.py: reading any JSON into a configuration, key by key, and rendering it again.
 The schema is data; everything here holds for every schema that is well formed.
 */
module ConfigCodec {
  import opened Basics
  import opened ConfigNames
  import opened SizeTexts
  import opened Units

  datatype Json =
    | Null | Bool(b: bool) | Int(i: int) | Float(f: real) | Str(s: string) | Arr(items: seq<Json>)
    | Obj(fields: map<Name, Json>)

  datatype Hint = HBool | HInt | HFloat | HStr | HList(item: Hint) | HDict | HOptional(inner: Hint)

  /** Python's `int(text, 10)` and `float(text)`; `None` is the `ValueError`. */
  datatype Python = Python(asInt: string -> Option<int>, asFloat: string -> Option<real>)

  // ---------------------------------------------------------------------------------------------
  // Coercion

  /** A value, the sentinel that makes the caller fall back to the default, or the `OverflowError`. */
  datatype Coerced = Got(value: Json) | Unset | Raised

  function Magnitude(i: int): nat {
    if i < 0 then -i else i
  }

  /** `float` of such an integer raises. */
  predicate TooBig(i: int) {
    Units.Float(Magnitude(i)) >= FLOAT_LIMIT
  }

  /** The integers in question begin half a step below 2^1024. */
  lemma TooBigIff(i: int)
    ensures TooBig(i) <==> Magnitude(i) >= FLOAT_LIMIT - Power(2, 970)
  {
    NoFloatIff(Magnitude(i), 0);
  }

  function AsBool(v: Json): Coerced {
    match v
    case Bool(_) => Got(v)
    case Int(i) => if i == 0 then Got(Bool(false)) else if i == 1 then Got(Bool(true)) else Unset
    case Str(s) =>
      var word := Lower(Strip(s));
      if word in ["true", "yes", "on", "1"] then Got(Bool(true))
      else if word in ["false", "no", "off", "0"] then Got(Bool(false))
      else Unset
    case _ => Unset
  }

  function AsInt(v: Json, py: Python): (r: Coerced)
    ensures !r.Raised?
  {
    match v
    case Int(_) => Got(v)
    case Float(f) => if f.Floor as real == f then Got(Int(f.Floor)) else Unset
    case Str(s) => var i := py.asInt(Strip(s)); if i.Some? then Got(Int(i.value)) else Unset
    case _ => Unset
  }

  function AsFloat(v: Json, py: Python): Coerced {
    match v
    case Int(i) =>
      var size: int := Units.Float(Magnitude(i));
      if TooBig(i) then Raised else Got(Float((if i < 0 then -size else size) as real))
    case Float(_) => Got(v)
    case Str(s) => var f := py.asFloat(Strip(s)); if f.Some? then Got(Float(f.value)) else Unset
    case _ => Unset
  }

  function AsStr(v: Json): Coerced {
    if v.Str? then Got(v) else Unset
  }

  /** Only a value of the enumeration, where the key has one. */
  function Allowed(v: Coerced, choices: seq<string>): Coerced {
    if v.Got? && choices != [] && !(v.value.Str? && v.value.s in choices) then Unset else v
  }

  /** `_coerce`. */
  function Coerce(v: Json, hint: Hint, choices: seq<string>, py: Python): Coerced
    decreases hint, 0
  {
    if v.Null? then (if hint.HOptional? then Got(Null) else Unset)
    else
      match if hint.HOptional? then hint.inner else hint
      case HList(item) => if v.Arr? then CoerceAll(v.items, item, py) else Unset
      case HDict => if v.Obj? then Got(v) else Unset
      case HBool => AsBool(v)
      case HInt => Allowed(AsInt(v, py), choices)
      case HFloat => Allowed(AsFloat(v, py), choices)
      case HStr => Allowed(AsStr(v), choices)
      case HOptional(_) => Unset
  }

  /** One bad item spoils the list, and those behind it are not looked at. */
  function CoerceAll(items: seq<Json>, item: Hint, py: Python): Coerced
    decreases item, 1, |items|
    ensures var r := CoerceAll(items, item, py); r.Got? ==> r.value.Arr?
  {
    if items == [] then Got(Arr([]))
    else
      var n := |items| - 1;
      var rest := CoerceAll(items[..n], item, py);
      if !rest.Got? then rest
      else
        var last := Coerce(items[n], item, [], py);
        if !last.Got? then last else Got(Arr(rest.value.items + [last.value]))
  }

  predicate HasType(v: Json, hint: Hint)
    decreases hint
  {
    match hint
    case HBool => v.Bool?
    case HInt => v.Int?
    case HFloat => v.Float?
    case HStr => v.Str?
    case HList(item) => v.Arr? && forall x :: x in v.items ==> HasType(x, item)
    case HDict => v.Obj?
    case HOptional(inner) => v.Null? || HasType(v, inner)
  }

  /** `X | None` is not nested. */
  predicate Plain(hint: Hint) {
    match hint
    case HOptional(inner) => !inner.HOptional? && Plain(inner)
    case HList(item) => Plain(item)
    case _ => true
  }

  predicate FloatFree(hint: Hint) {
    match hint
    case HFloat => false
    case HOptional(inner) => FloatFree(inner)
    case HList(item) => FloatFree(item)
    case _ => true
  }

  lemma {:induction false} CoercedHasType(v: Json, hint: Hint, choices: seq<string>, py: Python)
    requires Plain(hint) && Coerce(v, hint, choices, py).Got?
    ensures HasType(Coerce(v, hint, choices, py).value, hint)
    decreases hint, 0
  {
    hide Lower, Strip, TooBig, Units.Float;
    var inner := if hint.HOptional? then hint.inner else hint;
    if !v.Null? && inner.HList? {
      CoercedItems(v.items, inner.item, py);
    }
  }

  lemma {:induction false} CoercedItems(items: seq<Json>, item: Hint, py: Python)
    requires Plain(item) && CoerceAll(items, item, py).Got?
    ensures forall x :: x in CoerceAll(items, item, py).value.items ==> HasType(x, item)
    decreases item, 1, |items|
  {
    hide Coerce, HasType, Plain;
    if items != [] {
      var n := |items| - 1;
      CoercedItems(items[..n], item, py);
      CoercedHasType(items[n], item, [], py);
    }
  }

  /** A value that already has its type is not changed. */
  lemma {:induction false} TypedIsKept(v: Json, hint: Hint, choices: seq<string>, py: Python)
    requires Plain(hint) && HasType(v, hint)
    requires choices != [] && !v.Null? ==> v.Str? && v.s in choices
    ensures Coerce(v, hint, choices, py) == Got(v)
    decreases hint, 0
  {
    hide Lower, Strip, TooBig, Units.Float;
    var inner := if hint.HOptional? then hint.inner else hint;
    if !v.Null? && inner.HList? {
      TypedItemsKept(v.items, inner.item, py);
    }
  }

  lemma {:induction false} TypedItemsKept(items: seq<Json>, item: Hint, py: Python)
    requires Plain(item) && forall x :: x in items ==> HasType(x, item)
    ensures CoerceAll(items, item, py) == Got(Arr(items))
    decreases item, 1, |items|
  {
    hide Coerce, HasType, Plain;
    if items != [] {
      var n := |items| - 1;
      assert items[n] in items && items == items[..n] + [items[n]];
      TypedItemsKept(items[..n], item, py);
      TypedIsKept(items[n], item, [], py);
    }
  }

  /** Only an integer where a float is declared can raise. */
  lemma {:induction false} RaisesIffTooBig(v: Json, hint: Hint, choices: seq<string>, py: Python)
    ensures FloatFree(hint) ==> !Coerce(v, hint, choices, py).Raised?
    ensures hint.HFloat? ==> (Coerce(v, hint, choices, py).Raised? <==> v.Int? && TooBig(v.i))
    decreases hint, 0
  {
    hide Lower, Strip, TooBig, Units.Float;
    var inner := if hint.HOptional? then hint.inner else hint;
    if !v.Null? && inner.HList? && v.Arr? && FloatFree(hint) {
      ItemsNeverRaise(v.items, inner.item, py);
    }
  }

  lemma {:induction false} ItemsNeverRaise(items: seq<Json>, item: Hint, py: Python)
    requires FloatFree(item)
    ensures !CoerceAll(items, item, py).Raised?
    decreases item, 1, |items|
  {
    hide Coerce;
    if items != [] {
      var n := |items| - 1;
      ItemsNeverRaise(items[..n], item, py);
      RaisesIffTooBig(items[n], item, [], py);
    }
  }

  // ---------------------------------------------------------------------------------------------
  // Which value it is

  /** The text is one of these words, in any case and with blanks around it. */
  ghost predicate Says(text: string, words: set<string>) {
    exists w :: w in words && Lower(Strip(text)) == w
  }

  lemma BoolIsRead(v: Json, b: bool)
    ensures AsBool(v) == Got(Bool(b)) <==>
      || v == Bool(b) || v == Int(if b then 1 else 0)
      || (v.Str? && Says(v.s, if b then {"true", "yes", "on", "1"} else {"false", "no", "off", "0"}))
    ensures AsBool(v).Got? ==> AsBool(v).value.Bool?
  {
    hide Lower, Strip;
    if v.Str? {
      var word := Lower(Strip(v.s));
      assert word in ["true", "yes", "on", "1"] <==> word in {"true", "yes", "on", "1"};
      assert word in ["false", "no", "off", "0"] <==> word in {"false", "no", "off", "0"};
    }
  }

  /** A float is read as an integer only where it is one, and a truth value never is. */
  lemma IntIsRead(v: Json, n: int, py: Python)
    ensures AsInt(v, py) == Got(Int(n)) <==>
      v == Int(n) || v == Float(n as real) || (v.Str? && py.asInt(Strip(v.s)) == Some(n))
    ensures AsInt(v, py).Got? ==> AsInt(v, py).value.Int?
  {
    hide Strip;
    assert (n as real).Floor == n;
  }

  /** Which number an integer becomes: the nearest of 53 bits, with its sign. */
  ghost predicate FloatOfInt(i: int, x: real) {
    exists m: nat, k: nat :: NearestSteps(Magnitude(i), m, Power(2, k)) && m <= MANTISSA
      && (k > 0 ==> m >= MANTISSA / 2) && x == (if i < 0 then -(m * Power(2, k)) else m * Power(2, k)) as real
  }

  lemma IntBecomesFloat(i: int, py: Python)
    requires !TooBig(i)
    ensures AsFloat(Int(i), py).Got? && AsFloat(Int(i), py).value.Float?
    ensures FloatOfInt(i, AsFloat(Int(i), py).value.f)
    ensures Magnitude(i) <= MANTISSA ==> AsFloat(Int(i), py) == Got(Float(i as real))
  {
    var m, k := ToFloatIsNearest(Magnitude(i), 1);
    if Magnitude(i) <= MANTISSA {
      FloatExact(Magnitude(i));
    }
    hide TooBig, ToFloat, NearestSteps;
    assert 1 * Power(2, k) == Power(2, k);
  }

  lemma FloatIsRead(v: Json, x: real, py: Python)
    requires !v.Int?
    ensures AsFloat(v, py) == Got(Float(x)) <==> v == Float(x) || (v.Str? && py.asFloat(Strip(v.s)) == Some(x))
  {
    hide Strip;
  }

  // ---------------------------------------------------------------------------------------------
  // Sections

  datatype Declared = Declared(hint: Hint, default: Json, choices: seq<string>)

  /** A value a key may have: of its type, and in its enumeration. */
  predicate Fits(f: Declared, v: Json) {
    HasType(v, f.hint) && (f.choices != [] && !v.Null? ==> v.Str? && v.s in f.choices)
  }

  predicate WellDeclared(f: Declared) {
    Plain(f.hint) && Fits(f, f.default) && (f.choices != [] ==> f.hint == HStr)
  }

  type Field = f: Declared | WellDeclared(f) witness Declared(HBool, Bool(false), [])

  type Schema = map<Name, Field>

  type Section = map<Name, Json>

  function Get(raw: Json, name: Name): Json {
    if raw.Obj? && name in raw.fields then raw.fields[name] else Null
  }

  predicate Has(raw: Json, name: Name) {
    raw.Obj? && name in raw.fields
  }

  function CoerceField(f: Field, v: Json, py: Python): Coerced {
    Coerce(v, f.hint, f.choices, py)
  }

  predicate KeyRaises(f: Field, raw: Json, name: Name, py: Python) {
    Has(raw, name) && CoerceField(f, Get(raw, name), py).Raised?
  }

  /** What one key of a section becomes. */
  function Value(f: Field, raw: Json, name: Name, py: Python): Json {
    if Has(raw, name) && CoerceField(f, Get(raw, name), py).Got? then CoerceField(f, Get(raw, name), py).value
    else f.default
  }

  function SectionOf(schema: Schema, raw: Json, py: Python): Section {
    map n | n in schema :: Value(schema[n], raw, n, py)
  }

  predicate SectionRaises(schema: Schema, raw: Json, py: Python) {
    exists n :: n in schema && KeyRaises(schema[n], raw, n, py)
  }

  function ReadSection(schema: Schema, raw: Json, py: Python): Outcome<Section> {
    if SectionRaises(schema, raw, py) then Threw else Returned(SectionOf(schema, raw, py))
  }

  /** A section whose every key has a value that fits. */
  predicate SectionFits(schema: Schema, section: Section) {
    section.Keys == schema.Keys && forall n :: n in schema ==> Fits(schema[n], section[n])
  }

  lemma ValueFits(f: Field, raw: Json, name: Name, py: Python)
    ensures Fits(f, Value(f, raw, name, py))
  {
    if Has(raw, name) && CoerceField(f, Get(raw, name), py).Got? {
      CoercedHasType(Get(raw, name), f.hint, f.choices, py);
    }
  }

  /** Whatever JSON is read, the section fits its schema. */
  lemma SectionAlwaysFits(schema: Schema, raw: Json, py: Python)
    ensures SectionFits(schema, SectionOf(schema, raw, py))
  {
    hide Fits, Value, WellDeclared;
    forall n | n in schema ensures Fits(schema[n], Value(schema[n], raw, n, py)) {
      ValueFits(schema[n], raw, n, py);
    }
  }

  /** Reading a document that contains a fitting section, and perhaps more, gives that section. */
  lemma SectionRoundTrip(schema: Schema, section: Section, document: map<Name, Json>, py: Python)
    requires SectionFits(schema, section)
    requires forall n :: n in schema ==> n in document && document[n] == section[n]
    ensures ReadSection(schema, Obj(document), py) == Returned(section)
  {
    hide Fits, WellDeclared, Value, KeyRaises;
    forall n | n in schema
      ensures Value(schema[n], Obj(document), n, py) == section[n] && !KeyRaises(schema[n], Obj(document), n, py)
    {
      FittingIsKept(schema[n], document, n, py);
    }
    assert SectionOf(schema, Obj(document), py) == section;
  }

  lemma FittingIsKept(f: Field, document: map<Name, Json>, name: Name, py: Python)
    requires name in document && Fits(f, document[name])
    ensures Value(f, Obj(document), name, py) == document[name] && !KeyRaises(f, Obj(document), name, py)
  {
    TypedIsKept(document[name], f.hint, f.choices, py);
  }

  /** `_section_from_dict`: the defaults, overwritten key by key with what can be used. */
  method SectionFromDict(schema: Schema, raw: Json, py: Python) returns (values: Outcome<Section>)
    ensures values == ReadSection(schema, raw, py)
  {
    hide Coerce;
    var section := map n | n in schema :: schema[n].default;
    if raw.Obj? {
      var rest := schema.Keys * raw.fields.Keys;
      while rest != {}
        invariant rest <= schema.Keys * raw.fields.Keys && section.Keys == schema.Keys
        invariant forall n :: n in schema ==>
          section[n] == if n in rest then schema[n].default else Value(schema[n], raw, n, py)
        invariant forall n :: n in schema && n !in rest ==> !KeyRaises(schema[n], raw, n, py)
        decreases rest
      {
        var n := AnyOf(rest);
        rest := rest - {n};
        var coerced := CoerceField(schema[n], raw.fields[n], py);
        if coerced.Raised? {
          assert KeyRaises(schema[n], raw, n, py);
          return Threw;
        }
        if coerced.Got? {
          section := section[n := coerced.value];
        }
      }
    }
    assert section == SectionOf(schema, raw, py);
    values := Returned(section);
  }

  // ---------------------------------------------------------------------------------------------
  // Accounts and documents

  /** The shape of the documents: the sections of the application and those of every account. */
  datatype Layout = Layout(app: Schema, advanced: Schema, scalars: Schema, parts: map<Name, Schema>)

  /** One entry of `accounts`. */
  datatype Entry = Entry(scalars: Section, sections: map<Name, Section>)

  datatype Document = Document(schemaVersion: int, app: Section, advanced: Section, accounts: seq<Entry>)

  /** A text key that may be any text, and is not empty by default. */
  predicate IsText(schema: Schema, name: Name) {
    && name in schema && schema[name].hint == HStr && schema[name].choices == []
    && schema[name].default.Str? && schema[name].default.s != ""
  }

  predicate LayoutOk(layout: Layout) {
    && IsText(layout.scalars, Id) && IsText(layout.scalars, Remote)
    && layout.parts.Keys !! layout.scalars.Keys
  }

  /** Python's `not value`. */
  predicate Falsy(v: Json) {
    match v
    case Null => true
    case Bool(b) => !b
    case Int(i) => i == 0
    case Float(f) => f == 0.0
    case Str(s) => s == ""
    case Arr(items) => items == []
    case Obj(fields) => fields == map[]
  }

  /** `id` defaults to the remote name. */
  function WithId(scalars: Section, raw: Json): Section {
    if Falsy(Get(raw, Id)) && !Falsy(Get(Obj(scalars), Remote)) then scalars[Id := Get(Obj(scalars), Remote)]
    else scalars
  }

  /** What Python takes for false: one value of each type. */
  const NOTHINGS := [Null, Bool(false), Int(0), Float(0.0), Str(""), Arr([]), Obj(map[])]

  /** An account that says no id, or none that Python takes for true, is named after its remote, if it has one. */
  lemma NamedAfterRemote(scalars: Section, raw: Json)
    requires Remote in scalars
    ensures var said := if raw.Obj? && Id in raw.fields then raw.fields[Id] else Null;
      WithId(scalars, raw) == if said in NOTHINGS && scalars[Remote] !in NOTHINGS then scalars[Id := scalars[Remote]]
                              else scalars
  {
    hide NOTHINGS, Falsy;
    FalsyIff(Get(raw, Id));
    FalsyIff(scalars[Remote]);
  }

  lemma FalsyIff(v: Json)
    ensures Falsy(v) <==> v in NOTHINGS
  {
    if Falsy(v) {
      assert v == NOTHINGS[match v case Null => 0 case Bool(_) => 1 case Int(_) => 2 case Float(_) => 3 case Str(_) => 4
                           case Arr(_) => 5 case Obj(_) => 6];
    }
  }

  function SectionsOf(parts: map<Name, Schema>, raw: Json, py: Python): map<Name, Section> {
    map h | h in parts :: SectionOf(parts[h], Get(raw, h), py)
  }

  /** `_account_from_dict`. */
  function EntryOf(layout: Layout, raw: Json, py: Python): Entry {
    Entry(WithId(SectionOf(layout.scalars, raw, py), raw), SectionsOf(layout.parts, raw, py))
  }

  predicate EntryRaises(layout: Layout, raw: Json, py: Python) {
    || SectionRaises(layout.scalars, raw, py)
    || exists h :: h in layout.parts && SectionRaises(layout.parts[h], Get(raw, h), py)
  }

  /** What is not an object is passed over. */
  function EntriesOf(layout: Layout, raws: seq<Json>, py: Python): seq<Entry> {
    if raws == [] then []
    else
      var n := |raws| - 1;
      EntriesOf(layout, raws[..n], py) + if raws[n].Obj? then [EntryOf(layout, raws[n], py)] else []
  }

  predicate EntriesRaise(layout: Layout, raws: seq<Json>, py: Python) {
    exists i :: 0 <= i < |raws| && raws[i].Obj? && EntryRaises(layout, raws[i], py)
  }

  function RawEntries(raw: Json): seq<Json> {
    if Get(raw, Accounts).Arr? then Get(raw, Accounts).items else []
  }

  predicate DocumentRaises(layout: Layout, data: Json, py: Python) {
    || SectionRaises(layout.app, Get(data, AppHead), py) || SectionRaises(layout.advanced, Get(data, AdvancedHead), py)
    || EntriesRaise(layout, RawEntries(data), py)
  }

  function DocumentOf(layout: Layout, data: Json, py: Python): Document {
    Document(1, SectionOf(layout.app, Get(data, AppHead), py), SectionOf(layout.advanced, Get(data, AdvancedHead), py),
             EntriesOf(layout, RawEntries(data), py))
  }

  /** What `from_dict` reads of the document, brought forward. */
  function Data(layout: Layout, raw: Json, py: Python): Json {
    if raw.Obj? then Obj(Migrate(layout, raw.fields, py)) else Null
  }

  /** `AppConfig.from_dict`. */
  function FromDict(layout: Layout, raw: Json, py: Python): Outcome<Document> {
    var data := Data(layout, raw, py);
    if DocumentRaises(layout, data, py) then Threw else Returned(DocumentOf(layout, data, py))
  }

  function Objects(sections: map<Name, Section>): map<Name, Json> {
    map n | n in sections :: Obj(sections[n])
  }

  function EntryTo(e: Entry): Json {
    Obj(e.scalars + Objects(e.sections))
  }

  function EntriesTo(entries: seq<Entry>): (raws: seq<Json>)
    ensures |raws| == |entries| && forall i :: 0 <= i < |raws| ==> raws[i] == EntryTo(entries[i])
  {
    if entries == [] then []
    else EntriesTo(entries[..|entries| - 1]) + [EntryTo(entries[|entries| - 1])]
  }

  /** `AppConfig.to_dict`. */
  function ToDict(d: Document): map<Name, Json> {
    map[SchemaVersion := Int(d.schemaVersion), AppHead := Obj(d.app), AdvancedHead := Obj(d.advanced),
        Accounts := Arr(EntriesTo(d.accounts))]
  }

  // ---------------------------------------------------------------------------------------------
  // Migration

  /** A key that belongs to an account. */
  predicate OfAccount(layout: Layout, name: Name) {
    name in layout.scalars || name in layout.parts
  }

  function Loose(layout: Layout, raw: map<Name, Json>): map<Name, Json> {
    map n | n in raw && OfAccount(layout, n) :: raw[n]
  }

  /** `_migrate_0_to_1`: the loose keys of an account are wrapped into the list of accounts. */
  function Migrate0To1(layout: Layout, raw: map<Name, Json>): map<Name, Json> {
    if (Accounts in raw && raw[Accounts].Arr?) || Loose(layout, raw) == map[] then raw
    else (map n | n in raw && !OfAccount(layout, n) :: raw[n])[Accounts := Arr([Obj(Loose(layout, raw))])]
  }

  function Version(raw: map<Name, Json>, py: Python): nat {
    var v := AsInt(if SchemaVersion in raw then raw[SchemaVersion] else Int(0), py);
    if v.Got? && v.value.Int? && v.value.i >= 0 then v.value.i else 0
  }

  function Migrate(layout: Layout, raw: map<Name, Json>, py: Python): map<Name, Json> {
    (if Version(raw, py) < 1 then Migrate0To1(layout, raw) else raw)[SchemaVersion := Int(1)]
  }

  lemma MigrateIdempotent(layout: Layout, raw: map<Name, Json>, py: Python)
    ensures Migrate(layout, Migrate(layout, raw, py), py) == Migrate(layout, raw, py)
  {
    hide Migrate0To1;
  }

  /** The document says in one of the ways that are read as an integer that it is of version `v`. */
  predicate SaysVersion(raw: map<Name, Json>, py: Python, v: int) {
    && SchemaVersion in raw
    && match raw[SchemaVersion]
       case Int(i) => i == v
       case Float(f) => f == v as real
       case Str(s) => py.asInt(Strip(s)) == Some(v)
       case _ => false
  }

  lemma VersionSaid(raw: map<Name, Json>, py: Python)
    ensures Version(raw, py) >= 1 <==> exists v :: v >= 1 && SaysVersion(raw, py, v)
  {
    hide Strip;
    if Version(raw, py) >= 1 {
      assert SaysVersion(raw, py, Version(raw, py));
    }
    if v :| v >= 1 && SaysVersion(raw, py, v) {
      assert (v as real).Floor == v;
      assert Version(raw, py) == v;
    }
  }

  /**
   A document without a version and without accounts keeps everything: each key of an account is in
   the one account it gets, with its value, and every other key stays where it was.
   */
  lemma MigrateLosesNothing(layout: Layout, raw: map<Name, Json>, py: Python, name: Name)
    requires name in raw && name != SchemaVersion && !OfAccount(layout, Accounts) && !OfAccount(layout, SchemaVersion)
    ensures var data := Migrate(layout, raw, py);
      if OfAccount(layout, name) && !Get(Obj(raw), Accounts).Arr?
         && !(exists v :: v >= 1 && SaysVersion(raw, py, v)) then
        && Accounts in data && data[Accounts].Arr? && |data[Accounts].items| == 1
        && Get(data[Accounts].items[0], name) == raw[name]
      else name == Accounts || (name in data && data[name] == raw[name])
    ensures Get(Obj(raw), Accounts).Arr? ==> Get(Obj(Migrate(layout, raw, py)), Accounts) == raw[Accounts]
  {
    VersionSaid(raw, py);
    hide OfAccount, Version, SaysVersion;
    if OfAccount(layout, name) {
      assert name in Loose(layout, raw);
    }
  }

  /**
   On the document itself: without a list of accounts, and with some key of an account, it gets exactly
   one account, which holds every key of an account and nothing else, exactly when it does not say that
   it is of version 1 or later.  In every other case all its keys but the version stay.
   */
  lemma MigrateWraps(layout: Layout, raw: map<Name, Json>, py: Python)
    requires !OfAccount(layout, Accounts) && !OfAccount(layout, SchemaVersion)
    ensures var data := Migrate(layout, raw, py);
      var loose := set n | n in raw && (n in layout.scalars || n in layout.parts);
      && data.Keys >= {SchemaVersion} && data[SchemaVersion] == Int(1)
      && if (Accounts in raw && raw[Accounts].Arr?) || loose == {} || exists v :: v >= 1 && SaysVersion(raw, py, v) then
           && data.Keys == raw.Keys + {SchemaVersion}
           && forall n :: n in raw && n != SchemaVersion ==> data[n] == raw[n]
         else
           && data.Keys == raw.Keys - loose + {SchemaVersion, Accounts}
           && (forall n :: n in raw && n !in loose && n != SchemaVersion && n != Accounts ==> data[n] == raw[n])
           && data[Accounts].Arr? && |data[Accounts].items| == 1 && data[Accounts].items[0].Obj?
           && var account := data[Accounts].items[0].fields;
              account.Keys == loose && forall n :: n in loose ==> account[n] == raw[n]
  {
    VersionSaid(raw, py);
    hide SaysVersion, Version;
    LooseKeys(layout, raw);
    hide Loose;
  }

  lemma LooseKeys(layout: Layout, raw: map<Name, Json>)
    ensures var loose := set n | n in raw && (n in layout.scalars || n in layout.parts);
      && Loose(layout, raw).Keys == loose && (Loose(layout, raw) == map[] <==> loose == {})
      && forall n :: n in loose ==> Loose(layout, raw)[n] == raw[n]
  {
    assert Loose(layout, raw) == map[] <==> Loose(layout, raw).Keys == {};
  }

  // ---------------------------------------------------------------------------------------------
  // The round trip

  predicate EntryFits(layout: Layout, e: Entry) {
    && SectionFits(layout.scalars, e.scalars) && e.sections.Keys == layout.parts.Keys
    && forall h :: h in layout.parts ==> SectionFits(layout.parts[h], e.sections[h])
  }

  /** An account has an id, unless there is no remote to name it after. */
  predicate Named(e: Entry) {
    Falsy(Get(Obj(e.scalars), Id)) ==> Falsy(Get(Obj(e.scalars), Remote))
  }

  predicate AllFit(layout: Layout, entries: seq<Entry>) {
    forall i :: 0 <= i < |entries| ==> EntryFits(layout, entries[i])
  }

  predicate AllNamed(entries: seq<Entry>) {
    forall i :: 0 <= i < |entries| ==> Named(entries[i])
  }

  predicate DocumentFits(layout: Layout, d: Document) {
    && d.schemaVersion == 1 && SectionFits(layout.app, d.app) && SectionFits(layout.advanced, d.advanced)
    && AllFit(layout, d.accounts)
  }

  lemma WholeSection(schema: Schema, section: Section, py: Python)
    requires SectionFits(schema, section)
    ensures ReadSection(schema, Obj(section), py) == Returned(section)
  {
    hide Fits;
    SectionRoundTrip(schema, section, section, py);
  }

  lemma ScalarsRoundTrip(layout: Layout, e: Entry, py: Python)
    requires LayoutOk(layout) && EntryFits(layout, e)
    ensures ReadSection(layout.scalars, EntryTo(e), py) == Returned(e.scalars)
    ensures Id in e.scalars && Remote in e.scalars && Get(EntryTo(e), Id) == e.scalars[Id]
  {
    hide Fits;
    SectionRoundTrip(layout.scalars, e.scalars, e.scalars + Objects(e.sections), py);
  }

  lemma SectionsRoundTrip(layout: Layout, e: Entry, py: Python)
    requires LayoutOk(layout) && EntryFits(layout, e)
    ensures SectionsOf(layout.parts, EntryTo(e), py) == e.sections
    ensures forall h :: h in layout.parts ==> !SectionRaises(layout.parts[h], Get(EntryTo(e), h), py)
  {
    hide SectionOf, SectionRaises, SectionFits, IsText;
    forall h | h in layout.parts
      ensures SectionOf(layout.parts[h], Get(EntryTo(e), h), py) == e.sections[h]
      ensures !SectionRaises(layout.parts[h], Get(EntryTo(e), h), py)
    {
      assert Get(EntryTo(e), h) == Obj(e.sections[h]);
      WholeSection(layout.parts[h], e.sections[h], py);
    }
  }

  /** An account is read back as it was exactly when it is named. */
  lemma EntryRoundTrip(layout: Layout, e: Entry, py: Python)
    requires LayoutOk(layout) && EntryFits(layout, e)
    ensures !EntryRaises(layout, EntryTo(e), py)
    ensures EntryOf(layout, EntryTo(e), py) == e <==> Named(e)
  {
    hide SectionOf, SectionRaises, EntryTo, Falsy, SectionsOf, EntryFits, LayoutOk, WithId, Named;
    SectionsRoundTrip(layout, e, py);
    ScalarsRoundTrip(layout, e, py);
    WithSameId(e, EntryTo(e));
  }

  lemma WithSameId(e: Entry, raw: Json)
    requires Id in e.scalars && Remote in e.scalars && Get(raw, Id) == e.scalars[Id]
    ensures WithId(e.scalars, raw) == e.scalars <==> Named(e)
  {
    hide Falsy;
    FalsyDiffer(e.scalars[Id], e.scalars[Remote]);
    var renamed := e.scalars[Id := e.scalars[Remote]];
    assert renamed == e.scalars ==> renamed[Id] == e.scalars[Id];
  }

  lemma FalsyDiffer(a: Json, b: Json)
    ensures Falsy(a) && !Falsy(b) ==> a != b
  {
  }

  lemma {:induction false} EntriesOfObjects(layout: Layout, raws: seq<Json>, py: Python)
    requires forall i :: 0 <= i < |raws| ==> raws[i].Obj?
    ensures |EntriesOf(layout, raws, py)| == |raws|
    ensures forall i :: 0 <= i < |raws| ==> EntriesOf(layout, raws, py)[i] == EntryOf(layout, raws[i], py)
  {
    hide EntryOf;
    if raws != [] {
      EntriesOfObjects(layout, raws[..|raws| - 1], py);
    }
  }

  lemma {:induction false} EntriesRoundTrip(layout: Layout, entries: seq<Entry>, py: Python)
    requires LayoutOk(layout) && AllFit(layout, entries)
    ensures !EntriesRaise(layout, EntriesTo(entries), py)
    ensures EntriesOf(layout, EntriesTo(entries), py) == entries <==> AllNamed(entries)
  {
    hide EntryOf, EntriesOf, EntriesTo, EntryFits, EntryRaises, LayoutOk, Named;
    var raws := EntriesTo(entries);
    assert forall i :: 0 <= i < |raws| ==> raws[i].Obj?;
    hide EntryTo;
    EntriesOfObjects(layout, raws, py);
    forall i | 0 <= i < |entries|
      ensures !EntryRaises(layout, raws[i], py)
      ensures EntriesOf(layout, raws, py)[i] == entries[i] <==> Named(entries[i])
    {
      EntryRoundTrip(layout, entries[i], py);
    }
  }

  lemma WrittenData(layout: Layout, d: Document, py: Python)
    requires d.schemaVersion == 1
    ensures Data(layout, Obj(ToDict(d)), py) == Obj(ToDict(d))
  {
    hide EntriesTo, Migrate0To1;
    assert Version(ToDict(d), py) == 1;
  }

  /** A configuration is read back as it was written exactly when every account is named. */
  lemma RoundTrip(layout: Layout, d: Document, py: Python)
    requires LayoutOk(layout) && DocumentFits(layout, d)
    ensures FromDict(layout, Obj(ToDict(d)), py).Returned?
    ensures FromDict(layout, Obj(ToDict(d)), py) == Returned(d) <==> AllNamed(d.accounts)
  {
    hide Data, EntriesOf, EntriesTo, AllFit, AllNamed, SectionOf, SectionRaises, EntriesRaise, SectionFits, LayoutOk;
    WrittenData(layout, d, py);
    WholeSection(layout.app, d.app, py);
    WholeSection(layout.advanced, d.advanced, py);
    EntriesRoundTrip(layout, d.accounts, py);
    var raw := Obj(ToDict(d));
    assert Get(raw, AppHead) == Obj(d.app) && Get(raw, AdvancedHead) == Obj(d.advanced);
    assert RawEntries(raw) == EntriesTo(d.accounts);
  }

  // ---------------------------------------------------------------------------------------------
  // Reading any JSON

  lemma EntryAlwaysFits(layout: Layout, raw: Json, py: Python)
    requires LayoutOk(layout)
    ensures EntryFits(layout, EntryOf(layout, raw, py)) && Named(EntryOf(layout, raw, py))
  {
    hide SectionOf, SectionFits, Falsy, IsText, WithId, Named;
    SectionAlwaysFits(layout.scalars, raw, py);
    WithIdFits(layout, SectionOf(layout.scalars, raw, py), raw);
    forall h | h in layout.parts ensures SectionFits(layout.parts[h], SectionOf(layout.parts[h], Get(raw, h), py)) {
      SectionAlwaysFits(layout.parts[h], Get(raw, h), py);
    }
    IdIsRead(layout, raw, py);
  }

  /** Any text fits a free text key. */
  lemma WithIdFits(layout: Layout, scalars: Section, raw: Json)
    requires LayoutOk(layout) && SectionFits(layout.scalars, scalars)
    ensures SectionFits(layout.scalars, WithId(scalars, raw))
  {
    hide Falsy;
    assert Fits(layout.scalars[Remote], scalars[Remote]);
  }

  lemma IdIsRead(layout: Layout, raw: Json, py: Python)
    requires LayoutOk(layout)
    ensures Named(EntryOf(layout, raw, py))
  {
    hide SectionFits, SectionsOf, SectionOf, IsText;
    TextValue(layout.scalars, raw, py, Id);
    TextValue(layout.scalars, raw, py, Remote);
  }

  /** A free text key is read as its text, and never as an empty one unless the document says so. */
  lemma TextValue(schema: Schema, raw: Json, py: Python, name: Name)
    requires IsText(schema, name)
    ensures var section := SectionOf(schema, raw, py);
      name in section && section[name].Str? && (section[name].s == "" ==> Get(raw, name) == Str(""))
  {
  }

  lemma {:induction false} EntriesAlwaysFit(layout: Layout, raws: seq<Json>, py: Python)
    requires LayoutOk(layout)
    ensures AllFit(layout, EntriesOf(layout, raws, py)) && AllNamed(EntriesOf(layout, raws, py))
  {
    hide EntryOf, EntryFits, LayoutOk, Named;
    if raws != [] {
      var n := |raws| - 1;
      EntriesAlwaysFit(layout, raws[..n], py);
      EntryAlwaysFits(layout, raws[n], py);
    }
  }

  /** Whatever the document was, what is read of it fits the schema, unless reading raises. */
  lemma FromDictAlwaysFits(layout: Layout, raw: Json, py: Python)
    requires LayoutOk(layout)
    ensures var read := FromDict(layout, raw, py);
      read.Returned? ==> DocumentFits(layout, read.value) && AllNamed(read.value.accounts)
  {
    hide EntryFits, SectionFits, Named, EntriesOf, SectionOf, Data, IsText, Get, DocumentRaises;
    var data := Data(layout, raw, py);
    SectionAlwaysFits(layout.app, Get(data, AppHead), py);
    SectionAlwaysFits(layout.advanced, Get(data, AdvancedHead), py);
    EntriesAlwaysFit(layout, RawEntries(data), py);
  }

  /** What has been read once is read again, unchanged and without raising. */
  lemma ReadingIsStable(layout: Layout, raw: Json, py: Python)
    requires LayoutOk(layout) && FromDict(layout, raw, py).Returned?
    ensures FromDict(layout, Obj(ToDict(FromDict(layout, raw, py).value)), py) == FromDict(layout, raw, py)
  {
    hide FromDict, ToDict, LayoutOk, DocumentFits, AllNamed;
    FromDictAlwaysFits(layout, raw, py);
    RoundTrip(layout, FromDict(layout, raw, py).value, py);
  }
}
