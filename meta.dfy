/**
 * The metadata record of mnamer/metadata.py: a dataclass with a Movie and an
 * Episode variant whose every field assignment passes through a per-field
 * converter, the verbatim overlay `update`, the derived `is_subtitle`,
 * `extension` and `as_dict`, the filtering of guessit's attribute map and the
 * factory `parse_metadata`.
 *
 * A record's attributes are kept as a map from field to value, as in the
 * object's `__dict__`; None is `Option.None`.
 */
module Meta {
  import opened Values
  import opened Text

  /** The three dataclasses: Metadata, MetadataMovie and MetadataEpisode. */
  datatype Variant = BaseMetadata | MovieMetadata | EpisodeMetadata

  /** The dataclass fields; `Key` gives each one's Python attribute name. */
  datatype Field =
    | Container | Group | Language | Quality | Synopsis | MediaKind
    | Name | Year | IdImdb | IdTmdb
    | Series | Season | EpisodeNumber | AirDate | Title | IdTvdb | IdTvmaze

  function Key(f: Field): string {
    match f
    case Container => "container"
    case Group => "group"
    case Language => "language"
    case Quality => "quality"
    case Synopsis => "synopsis"
    case MediaKind => "media"
    case Name => "name"
    case Year => "year"
    case IdImdb => "id_imdb"
    case IdTmdb => "id_tmdb"
    case Series => "series"
    case Season => "season"
    case EpisodeNumber => "episode"
    case AirDate => "date"
    case Title => "title"
    case IdTvdb => "id_tvdb"
    case IdTvmaze => "id_tvmaze"
  }

  /** The class that declares a field. */
  function Owner(f: Field): Variant {
    match f
    case Container | Group | Language | Quality | Synopsis | MediaKind => BaseMetadata
    case Name | Year | IdImdb | IdTmdb => MovieMetadata
    case _ => EpisodeMetadata
  }

  /** Whether a class has a field: the base fields are everywhere, the others on their own variant. */
  predicate HasField(variant: Variant, f: Field) {
    Owner(f) == BaseMetadata || Owner(f) == variant
  }

  const BaseFields: seq<Field> := [Container, Group, Language, Quality, Synopsis, MediaKind]
  const MovieFields: seq<Field> := [Name, Year, IdImdb, IdTmdb]
  const EpisodeFields: seq<Field> := [Series, Season, EpisodeNumber, AirDate, Title, IdTvdb, IdTvmaze]

  /** The dataclass fields in declaration order (a redeclared `media` keeps its place). */
  function FieldsOf(variant: Variant): (r: seq<Field>)
    ensures forall i :: 0 <= i < |r| ==> HasField(variant, r[i])
  {
    match variant
    case BaseMetadata => BaseFields
    case MovieMetadata => BaseFields + MovieFields
    case EpisodeMetadata => BaseFields + EpisodeFields
  }

  /** The base fields come first, then the variant's own. */
  lemma FieldOrder(variant: Variant, j: nat)
    requires j < |FieldsOf(variant)|
    ensures Owner(FieldsOf(variant)[j]) == if j < |BaseFields| then BaseMetadata else variant
  {
    if j >= |BaseFields| {
      var own := FieldsOf(variant)[|BaseFields|..];
      assert FieldsOf(variant)[j] == own[j - |BaseFields|];
      assert own == MovieFields || own == EpisodeFields;
    }
  }

  type Record = map<Field, Option<Value>>

  /** The value of an attribute; a field that is not there reads as None. */
  function At(rec: Record, f: Field): Option<Value> {
    if f in rec then rec[f] else None
  }

  /** Every field defaults to None, except `media` on the two variants. */
  function Default(variant: Variant, f: Field): Option<Value> {
    if f != MediaKind then None
    else if variant == MovieMetadata then Some(Media(Movie))
    else if variant == EpisodeMetadata then Some(Media(Episode))
    else None
  }

  /**
   * The helpers of mnamer.utils, and the renderings of Python objects that
   * the model does not fix, as uninterpreted functions.
   */
  datatype Helpers = Helpers(
    normalizeContainer: string -> string,
    replaceSlashes: string -> string,
    titleCase: string -> string,
    fixPadding: string -> string,
    yearParse: Value -> Option<int>,
    parseDate: Value -> Value,
    show: Value -> string,
    formatOther: (Value, string) -> string,
    index: (Option<Value>, string) -> Result<Option<Value>>,
    cc: CharClasses)

  /** str(v): None prints as "None"; objects other than str and int are left to `show`. */
  function PyStr(v: Option<Value>, h: Helpers): string {
    match v
    case None => "None"
    case Some(Str(s)) => s
    case Some(Int(i)) => IntToString(i)
    case Some(x) => h.show(x)
  }

  /** MediaType(v): a member is kept, a member's value is looked up, anything else is refused. */
  function ToMediaType(v: Value): (r: Result<MediaType>)
    ensures r.Err? ==> r.error == ValueError
  {
    match v
    case Media(m) => Ok(m)
    case Str(s) =>
      if s == "movie" then Ok(Movie) else if s == "episode" then Ok(Episode) else Err(ValueError)
    case _ => Err(ValueError)
  }

  /** int(v) for the values the model distinguishes. */
  function ToInt(v: Value, cc: CharClasses): Result<int> {
    match v
    case Int(i) => Ok(i)
    case Str(s) => if ParseInt(s, cc).Some? then Ok(ParseInt(s, cc).value) else Err(ValueError)
    case _ => Err(TypeError)
  }

  /**
   * The converter tables of the three `__setattr__` hooks, applied to a value
   * that is not None (each field belongs to one class, so the field decides);
   * a str method or string helper given anything but a str raises TypeError.
   */
  function Convert(f: Field, v: Value, h: Helpers): Result<Option<Value>> {
    match f
    case Container => if v.Str? then Ok(Some(Str(h.normalizeContainer(v.s)))) else Err(TypeError)
    case Group => if v.Str? then Ok(Some(Str(Upper(v.s)))) else Err(TypeError)
    case MediaKind => if ToMediaType(v).Ok? then Ok(Some(Media(ToMediaType(v).value))) else Err(ValueError)
    case Quality => if v.Str? then Ok(Some(Str(Lower(v.s)))) else Err(TypeError)
    case Synopsis => if v.Str? then Ok(Some(Str(Capitalize(v.s)))) else Err(TypeError)
    case Year => Ok(if h.yearParse(v).Some? then Some(Int(h.yearParse(v).value)) else None)
    case AirDate => Ok(Some(h.parseDate(v)))
    case EpisodeNumber | Season => if ToInt(v, h.cc).Ok? then Ok(Some(Int(ToInt(v, h.cc).value))) else Err(ToInt(v, h.cc).error)
    case Name | Series | Title => if v.Str? then Ok(Some(Str(h.titleCase(h.replaceSlashes(v.s))))) else Err(TypeError)
    case _ => Ok(Some(v))
  }

  /** `self.f = v`: None is stored as is, any other value through its converter. */
  function Assign(rec: Record, f: Field, v: Option<Value>, h: Helpers): (r: Result<Record>)
    ensures r.Ok? ==> f in r.value && r.value == rec[f := r.value[f]]
    ensures v.None? ==> r == Ok(rec[f := None])
    ensures v.Some? ==> (r.Ok? <==> Convert(f, v.value, h).Ok?)
    ensures v.Some? && r.Ok? ==> r.value[f] == Convert(f, v.value, h).value
    ensures v.Some? && r.Err? ==> r.error == Convert(f, v.value, h).error
  {
    if v.None? then Ok(rec[f := None])
    else var x :- Convert(f, v.value, h); Ok(rec[f := x])
  }

  /** The string converters: upper-cased group, lower-cased quality, and a TypeError for anything but a str. */
  lemma StringConverters(f: Field, v: Value, h: Helpers)
    ensures f == Group && v.Str? ==> Convert(f, v, h) == Ok(Some(Str(Upper(v.s)))) && NoLower(Upper(v.s))
    ensures f == Quality && v.Str? ==> Convert(f, v, h) == Ok(Some(Str(Lower(v.s)))) && NoUpper(Lower(v.s))
    ensures f == Synopsis && v.Str? ==> Convert(f, v, h) == Ok(Some(Str(Capitalize(v.s))))
    ensures f in {Name, Series, Title} ==>
      Convert(f, v, h) == if v.Str? then Ok(Some(Str(h.titleCase(h.replaceSlashes(v.s))))) else Err(TypeError)
    ensures f in {Container, Group, Quality, Synopsis} && !v.Str? ==> Convert(f, v, h) == Err(TypeError)
  {
    if v.Str? {
      UpperSpec(v.s);
      LowerSpec(v.s);
    }
  }

  /** `media` only ever holds a MediaType member; a string other than a member's value is a ValueError. */
  lemma MediaConverter(v: Value, h: Helpers)
    ensures Convert(MediaKind, v, h).Ok? ==> Convert(MediaKind, v, h).value.Some? && Convert(MediaKind, v, h).value.value.Media?
    ensures v.Str? ==> (Convert(MediaKind, v, h).Ok? <==> v.s == "movie" || v.s == "episode")
    ensures Convert(MediaKind, v, h).Err? ==> Convert(MediaKind, v, h).error == ValueError
  {
  }

  /** `season` and `episode` only ever hold ints: a digit string is read in base 10, a string without digits is a ValueError. */
  lemma NumberConverters(f: Field, v: Value, h: Helpers)
    requires f == Season || f == EpisodeNumber
    requires h.cc.Sane()
    ensures Convert(f, v, h).Ok? ==> Convert(f, v, h).value.Some? && Convert(f, v, h).value.value.Int?
    ensures v.Int? ==> Convert(f, v, h) == Ok(Some(v))
    ensures v.Str? && IsDigits(v.s) ==> Convert(f, v, h) == Ok(Some(Int(DigitsValue(v.s) as int)))
    ensures v.Str? && !HasDigit(v.s) ==> Convert(f, v, h) == Err(ValueError)
    ensures !v.Str? && !v.Int? ==> Convert(f, v, h) == Err(TypeError)
  {
    var n := ToInt(v, h.cc);
    assert Convert(f, v, h) == if n.Ok? then Ok(Some(Int(n.value))) else Err(n.error);
    if v.Str? {
      if IsDigits(v.s) {
        ParseDigits(v.s, h.cc);
      } else if !HasDigit(v.s) {
        ParseNeedsDigit(v.s, h.cc);
      }
    }
  }

  predicate HasDigit(s: string) { exists i :: 0 <= i < |s| && IsAsciiDigit(s[i]) }

  lemma ParseDigits(s: string, cc: CharClasses)
    requires cc.Sane() && IsDigits(s)
    ensures ParseInt(s, cc) == Some(DigitsValue(s) as int)
  {
    assert !cc.isSpace(s[0]) && !cc.isSpace(s[|s| - 1]);
    assert StripLeft(s, cc) == s;
    assert StripRight(s, cc) == s;
  }

  lemma ParseNeedsDigit(s: string, cc: CharClasses)
    requires !HasDigit(s)
    ensures ParseInt(s, cc).None?
  {
    var t := Strip(s, cc);
    var a := StripSlice(s, cc);
    if t != [] {
      assert !IsAsciiDigit(t[0]) by { assert t[0] == s[a]; }
      assert !IsDigits(t);
      if |t| > 1 {
        assert !IsAsciiDigit(t[1..][0]) by { assert t[1..][0] == s[a + 1]; }
      }
      assert !IsDigits(t[1..]);
    }
  }

  /** `is_subtitle`: the container is set and ends with ".srt". */
  function IsSubtitle(rec: Record): (r: Result<bool>)
    ensures r.Err? <==> Truthy(At(rec, Container)) && !At(rec, Container).value.Str?
    ensures r.Err? ==> r.error == AttributeError
  {
    match At(rec, Container)
    case Some(Str(s)) => Ok(EndsWith(s, ".srt"))
    case c => if Truthy(c) then Err(AttributeError) else Ok(false)
  }

  /** `extension`: ".<alpha2><container>" for a subtitle with a language, else the container. */
  function Extension(rec: Record): (r: Result<Option<Value>>)
    ensures r.Err? ==> r.error == AttributeError
    ensures IsSubtitle(rec).Err? ==> r.Err?
  {
    var sub :- IsSubtitle(rec);
    if sub && Truthy(At(rec, Language)) then
      match At(rec, Language)
      case Some(Lang(code)) => Ok(Some(Str("." + code + At(rec, Container).value.s)))
      case _ => Err(AttributeError)
    else Ok(At(rec, Container))
  }

  /** The subtitle rule: a subtitle's extension carries the language code, anything else's is the container. */
  lemma ExtensionRule(rec: Record)
    requires IsSubtitle(rec).Ok?
    ensures IsSubtitle(rec).value <==>
      (At(rec, Container).Some? && At(rec, Container).value.Str? && EndsWith(At(rec, Container).value.s, ".srt"))
    ensures !IsSubtitle(rec).value || !Truthy(At(rec, Language)) ==> Extension(rec) == Ok(At(rec, Container))
    ensures IsSubtitle(rec).value && At(rec, Language).Some? && At(rec, Language).value.Lang? ==>
      Extension(rec) == Ok(Some(Str("." + At(rec, Language).value.alpha2 + At(rec, Container).value.s)))
    ensures Extension(rec).Ok? && Extension(rec).value.Some? && Extension(rec).value.value.Str? ==>
      EndsWith(Extension(rec).value.value.s, At(rec, Container).value.s)
  {
  }

  /** The attribute names and values of a record, in field order. */
  function Named(rec: Record, fields: seq<Field>): map<string, Option<Value>> {
    if fields == [] then map[]
    else Named(rec, fields[..|fields| - 1])[Key(fields[|fields| - 1]) := At(rec, fields[|fields| - 1])]
  }

  /** `as_dict()`: every field under its attribute name, and the derived "extension". */
  function AsDict(variant: Variant, rec: Record): (r: Result<map<string, Option<Value>>>)
    ensures r.Ok? <==> Extension(rec).Ok?
    ensures r.Ok? ==> r.value.Keys == (set f | f in FieldsOf(variant) :: Key(f)) + {"extension"}
    ensures r.Ok? ==> r.value["extension"] == Extension(rec).value
  {
    var e :- Extension(rec);
    NamedKeys(rec, FieldsOf(variant));
    Ok(Named(rec, FieldsOf(variant))["extension" := e])
  }

  lemma {:induction false} NamedKeys(rec: Record, fields: seq<Field>)
    ensures Named(rec, fields).Keys == set f | f in fields :: Key(f)
  {
    if fields != [] {
      NamedKeys(rec, fields[..|fields| - 1]);
      assert fields == fields[..|fields| - 1] + [fields[|fields| - 1]];
    }
  }

  /** Every field is found under its attribute name, whatever comes after it. */
  lemma {:induction false} NamedAt(rec: Record, fields: seq<Field>, f: Field)
    requires f in fields
    ensures Key(f) in Named(rec, fields) && Named(rec, fields)[Key(f)] == At(rec, f)
  {
    var last := fields[|fields| - 1];
    if last != f {
      KeyInjective(last, f);
      assert fields == fields[..|fields| - 1] + [last];
      NamedAt(rec, fields[..|fields| - 1], f);
    }
  }

  /** The field an attribute name denotes. */
  function FieldNamed(name: string): Option<Field> {
    if name == "container" then Some(Container)
    else if name == "group" then Some(Group)
    else if name == "language" then Some(Language)
    else if name == "quality" then Some(Quality)
    else if name == "synopsis" then Some(Synopsis)
    else if name == "media" then Some(MediaKind)
    else if name == "name" then Some(Name)
    else if name == "year" then Some(Year)
    else if name == "id_imdb" then Some(IdImdb)
    else if name == "id_tmdb" then Some(IdTmdb)
    else if name == "series" then Some(Series)
    else if name == "season" then Some(Season)
    else if name == "episode" then Some(EpisodeNumber)
    else if name == "date" then Some(AirDate)
    else if name == "title" then Some(Title)
    else if name == "id_tvdb" then Some(IdTvdb)
    else if name == "id_tvmaze" then Some(IdTvmaze)
    else None
  }

  /** Distinct fields have distinct attribute names, and none is called "extension". */
  lemma KeyInjective(f: Field, g: Field)
    ensures Key(f) == Key(g) ==> f == g
    ensures Key(f) != "extension" && FieldNamed(Key(f)) == Some(f)
  {
    assert FieldNamed(Key(f)) == Some(f);
    assert FieldNamed(Key(g)) == Some(g);
  }

  // ---------------------------------------------------------------------------
  // guessit's attribute map

  /** What guessit is asked about: the whole path, or only its last part. */
  datatype PathPart = WholePath | LastPart

  /**
   * A file path as the record sees it: its suffix, and the attribute map
   * guessit makes of it for a part of the path and a "type" option.
   */
  datatype FilePath = FilePath(suffix: string, guess: (PathPart, Option<string>) -> Dict)

  /** `d[k] = v` on an ordered dict: an existing key keeps its place. */
  function DictSet(d: Dict, k: string, v: Value): (r: Dict)
    ensures Get(r, k) == Some(v)
    ensures forall j :: j != k ==> Get(r, j) == Get(d, j)
  {
    if d == [] then [(k, v)]
    else if d[0].0 == k then [(k, v)] + d[1..]
    else [d[0]] + DictSet(d[1..], k, v)
  }

  /** What `_parse_path_data` keeps of one value. */
  datatype Kept = Keep(v: Value) | Drop | Fail

  function KeepValue(v: Value): Kept {
    if IsScalar(v) then Keep(v)
    else if v.List? && forall i :: 0 <= i < |v.items| ==> v.items[i].Int? || v.items[i].Str? then
      if v.items == [] then Fail else Keep(v.items[0])
    else Drop
  }

  /** The path data the loop of `_parse_path_data` builds from the first n entries of raw. */
  function FilterPathData(raw: Dict, n: nat): (r: Result<Dict>)
    requires n <= |raw|
    ensures r.Err? ==> r.error == IndexError
  {
    if n == 0 then Ok([])
    else
      var pd :- FilterPathData(raw, n - 1);
      match KeepValue(raw[n - 1].1)
      case Keep(v) => Ok(DictSet(pd, raw[n - 1].0, v))
      case Drop => Ok(pd)
      case Fail => Err(IndexError)
  }

  /**
   * The path data keeps a scalar, the first element of a non-empty list of
   * ints and strings, and nothing else; an empty list raises IndexError.
   */
  lemma {:induction false} FilterPathDataSpec(raw: Dict, n: nat, k: string)
    requires n <= |raw| && DistinctKeys(raw)
    requires FilterPathData(raw, n).Ok?
    ensures Get(FilterPathData(raw, n).value, k) ==
      if exists i :: 0 <= i < n && raw[i].0 == k && KeepValue(raw[i].1).Keep? then
        var i :| 0 <= i < n && raw[i].0 == k && KeepValue(raw[i].1).Keep?; Some(KeepValue(raw[i].1).v)
      else None
  {
    if n > 0 {
      FilterPathDataSpec(raw, n - 1, k);
      var last := raw[n - 1];
      if last.0 == k && KeepValue(last.1).Keep? {
        forall i | 0 <= i < n && raw[i].0 == k ensures i == n - 1 { }
      } else if last.0 == k {
        forall i | 0 <= i < n && raw[i].0 == k ensures i == n - 1 { }
      }
    }
  }

  /** An empty list anywhere in the map makes `_parse_path_data` raise IndexError. */
  lemma {:induction false} FilterPathDataFails(raw: Dict, n: nat, i: nat)
    requires i < n <= |raw| && raw[i].1 == List([])
    ensures FilterPathData(raw, n) == Err(IndexError)
  {
    if i < n - 1 {
      FilterPathDataFails(raw, n - 1, i);
    } else {
      assert KeepValue(raw[i].1) == Fail;
    }
  }

  const QualityKeys: set<string> := {"audio_codec", "audio_profile", "screen_size", "source", "video_codec", "video_profile"}

  /** The values of the quality entries of the path data, in order. */
  function QualityParts(pd: Dict): (r: seq<Value>)
    ensures |r| <= |pd|
  {
    if pd == [] then []
    else if pd[|pd| - 1].0 in QualityKeys then QualityParts(pd[..|pd| - 1]) + [pd[|pd| - 1].1]
    else QualityParts(pd[..|pd| - 1])
  }

  /** `" ".join(...)` over the quality entries; a value that is not a str raises TypeError. */
  function QualityJoin(pd: Dict): Result<string> {
    var parts := QualityParts(pd);
    if forall i :: 0 <= i < |parts| ==> parts[i].Str? then
      Ok(Join(" ", seq(|parts|, i requires 0 <= i < |parts| && parts[i].Str? => parts[i].s)))
    else Err(TypeError)
  }

  // ---------------------------------------------------------------------------
  // construction

  /** The guessit "type" option: `getattr(self.media, "value", None)`. */
  function TypeOption(media: Option<Value>): Option<string> {
    match media
    case Some(Media(m)) => Some(MediaValue(m))
    case _ => None
  }

  /** The dataclass `__init__` without `__post_init__`: the first n fields in order, from args or their default. */
  function AssignFields(variant: Variant, rec: Record, args: Record, n: nat, h: Helpers): Result<Record>
    requires n <= |FieldsOf(variant)|
  {
    if n == 0 then Ok(rec)
    else
      var r :- AssignFields(variant, rec, args, n - 1, h);
      var f := FieldsOf(variant)[n - 1];
      Assign(r, f, if f in args then args[f] else Default(variant, f), h)
  }

  /** One more field of `__init__` is one more assignment to what the earlier ones built. */
  lemma AssignFieldsStep(variant: Variant, rec: Record, args: Record, n: nat, h: Helpers)
    requires n < |FieldsOf(variant)| && AssignFields(variant, rec, args, n, h).Ok?
    ensures var f := FieldsOf(variant)[n];
      AssignFields(variant, rec, args, n + 1, h) ==
      Assign(AssignFields(variant, rec, args, n, h).value, f, if f in args then args[f] else Default(variant, f), h)
  {
  }

  /** The assignments of `Metadata.__post_init__` that follow the path-data parse. */
  function CommonFields(rec: Record, pd: Dict, suffix: string, h: Helpers): Result<Record> {
    var t :- if Get(pd, "type").Some? then ToMediaType(Get(pd, "type").value) else Err(KeyError);
    var r1 :- Assign(rec, MediaKind, Some(Media(t)), h);
    var q :- QualityJoin(pd);
    var r2 :- Assign(r1, Quality, if q == "" then None else Some(Str(q)), h);
    var r3 :- Assign(r2, Language, Get(pd, "subtitle_language"), h);
    var r4 :- Assign(r3, Group, Get(pd, "release_group"), h);
    Assign(r4, Container, if suffix == "" then None else Some(Str(suffix)), h)
  }

  /** The assignments of the variant's `__post_init__` after the base one. */
  function VariantFields(variant: Variant, rec: Record, pd: Dict, h: Helpers): Result<Record> {
    match variant
    case BaseMetadata => Ok(rec)
    case MovieMetadata =>
      var r1 :- Assign(rec, Name, Get(pd, "title"), h);
      Assign(r1, Year, Get(pd, "year"), h)
    case EpisodeMetadata =>
      var r1 :- Assign(rec, AirDate, Get(pd, "date"), h);
      var r2 :- Assign(r1, EpisodeNumber, Get(pd, "episode"), h);
      var r3 :- Assign(r2, Season, Get(pd, "season"), h);
      var r4 :- Assign(r3, Series, Get(pd, "title"), h);
      var alt := Get(pd, "alternative_title");
      if Truthy(alt) then Assign(r4, Series, Some(Str(PyStr(At(r4, Series), h) + " " + PyStr(alt, h))), h)
      else Ok(r4)
  }

  /** The attribute map guessit gives: re-asked about the last part when "season" is a list. */
  function RawData(file: FilePath, typeOption: Option<string>): Dict {
    var raw := file.guess(WholePath, typeOption);
    if Get(raw, "season").Some? && Get(raw, "season").value.List? then file.guess(LastPart, typeOption) else raw
  }

  /** `__post_init__(file_path)`. */
  function PostInitSpec(variant: Variant, rec: Record, file: FilePath, h: Helpers): Result<Record> {
    var raw := RawData(file, TypeOption(At(rec, MediaKind)));
    var pd :- FilterPathData(raw, |raw|);
    var r1 :- CommonFields(rec, pd, file.suffix, h);
    VariantFields(variant, r1, pd, h)
  }

  /** Construction: `__init__` with keyword arguments args, then `__post_init__` when a path is given. */
  function InitSpec(variant: Variant, args: Record, file: Option<FilePath>, h: Helpers): Result<Record> {
    var rec :- AssignFields(variant, map[], args, |FieldsOf(variant)|, h);
    if file.None? then Ok(rec) else PostInitSpec(variant, rec, file.value, h)
  }

  /** The class `parse_metadata` picks from the media type a base record learnt. */
  function DerivedClass(media: Option<Value>): (r: Result<Variant>)
    ensures r.Ok? <==> media.Some? && media.value.Media?
    ensures r.Ok? ==> r.value != BaseMetadata && (r.value == EpisodeMetadata <==> media.value.media == Episode)
    ensures r.Err? ==> r.error == KeyError
  {
    match media
    case Some(Media(Episode)) => Ok(EpisodeMetadata)
    case Some(Media(Movie)) => Ok(MovieMetadata)
    case _ => Err(KeyError)
  }

  /** `parse_metadata`: a base record learns the media type, then the matching variant is built from it. */
  function ParseSpec(file: FilePath, hint: Option<MediaType>, h: Helpers): Result<(Variant, Record)> {
    var base :- InitSpec(BaseMetadata, map[MediaKind := if hint.Some? then Some(Media(hint.value)) else None], Some(file), h);
    var variant :- DerivedClass(At(base, MediaKind));
    var rec :- InitSpec(variant, base, Some(file), h);
    Ok((variant, rec))
  }

  /**
   * A record object. `attrs` is the instance's `__dict__` restricted to the
   * dataclass fields; `pathData` is `self._path_data`.
   */
  class Metadata {
    const variant: Variant
    var attrs: Record
    var pathData: Dict

    /** A fresh instance, before `__init__` has assigned any field. */
    constructor (variant: Variant)
      ensures this.variant == variant && attrs == map[] && pathData == []
    {
      this.variant := variant;
      attrs := map[];
      pathData := [];
    }

    /** `__setattr__`: the converter runs first; if it raises, nothing is stored. */
    method SetAttr(f: Field, v: Option<Value>, h: Helpers) returns (err: Option<Error>)
      modifies this`attrs
      ensures Assign(old(attrs), f, v, h) == if err.None? then Ok(attrs) else Err(err.value)
      ensures err.Some? ==> attrs == old(attrs)
    {
      var r := Assign(attrs, f, v, h);
      if r.Ok? {
        attrs := r.value;
        err := None;
      } else {
        err := Some(r.error);
      }
    }

    /**
     * `update(other)`: walks this record's fields in order; a field missing on
     * other raises AttributeError (the fields before it are already written),
     * a None on other is skipped, anything else is stored without conversion.
     */
    method Update(other: Metadata) returns (err: Option<Error>)
      modifies this`attrs
      ensures err.None? <==> variant == BaseMetadata || variant == other.variant
      ensures err.Some? ==> err == Some(AttributeError)
      ensures attrs == Overlay(if err.None? then FieldsOf(variant) else BaseFields, old(attrs), old(other.attrs))
    {
      var fields := FieldsOf(variant);
      ghost var theirs := other.attrs;
      ghost var mine := attrs;
      var i := 0;
      while i < |fields|
        invariant 0 <= i <= |fields|
        invariant i <= |BaseFields| || variant == BaseMetadata || variant == other.variant
        invariant other.attrs == theirs
        invariant attrs == Overlay(fields[..i], mine, theirs)
      {
        var f := fields[i];
        FieldOrder(variant, i);
        if !HasField(other.variant, f) {
          assert fields[..i] == BaseFields;
          return Some(AttributeError);
        }
        var value := At(other.attrs, f);
        if value.Some? {
          attrs := attrs[f := value];
          assert other == this ==> attrs == old(attrs);
        }
        assert fields[..i + 1][..i] == fields[..i];
        i := i + 1;
      }
      assert fields[..i] == fields;
      return None;
    }

    /** The loop of `_parse_path_data`, over a map guessit produced. */
    method ParsePathData(raw: Dict) returns (err: Option<Error>)
      modifies this`pathData
      ensures FilterPathData(raw, |raw|).Ok? ==> err.None? && pathData == FilterPathData(raw, |raw|).value
      ensures FilterPathData(raw, |raw|).Err? ==> err == Some(IndexError)
    {
      pathData := [];
      var i := 0;
      while i < |raw|
        invariant 0 <= i <= |raw|
        invariant FilterPathData(raw, i) == Ok(pathData)
      {
        var (k, v) := raw[i];
        match KeepValue(v) {
          case Keep(x) => pathData := DictSet(pathData, k, x);
          case Drop =>
          case Fail =>
            FailStays(raw, i + 1);
            return Some(IndexError);
        }
        i := i + 1;
      }
      return None;
    }

    /** The assignments of `Metadata.__post_init__` after the path data is parsed. */
    method SetCommon(pd: Dict, suffix: string, h: Helpers) returns (err: Option<Error>)
      modifies this`attrs
      ensures CommonFields(old(attrs), pd, suffix, h).Ok? ==> err.None? && attrs == CommonFields(old(attrs), pd, suffix, h).value
      ensures CommonFields(old(attrs), pd, suffix, h).Err? ==> err == Some(CommonFields(old(attrs), pd, suffix, h).error)
    {
      if Get(pd, "type").None? {
        return Some(KeyError);
      }
      var t := ToMediaType(Get(pd, "type").value);
      if t.Err? {
        return Some(t.error);
      }
      err := SetAttr(MediaKind, Some(Media(t.value)), h);
      if err.Some? { return; }
      var q := QualityJoin(pd);
      if q.Err? {
        return Some(q.error);
      }
      err := SetAttr(Quality, if q.value == "" then None else Some(Str(q.value)), h);
      if err.Some? { return; }
      err := SetAttr(Language, Get(pd, "subtitle_language"), h);
      if err.Some? { return; }
      err := SetAttr(Group, Get(pd, "release_group"), h);
      if err.Some? { return; }
      err := SetAttr(Container, if suffix == "" then None else Some(Str(suffix)), h);
    }

    /** The assignments of the variant's own `__post_init__`. */
    method SetVariant(pd: Dict, h: Helpers) returns (err: Option<Error>)
      modifies this`attrs
      ensures VariantFields(variant, old(attrs), pd, h).Ok? ==> err.None? && attrs == VariantFields(variant, old(attrs), pd, h).value
      ensures VariantFields(variant, old(attrs), pd, h).Err? ==> err == Some(VariantFields(variant, old(attrs), pd, h).error)
    {
      match variant
      case BaseMetadata =>
        err := None;
      case MovieMetadata =>
        err := SetAttr(Name, Get(pd, "title"), h);
        if err.Some? { return; }
        err := SetAttr(Year, Get(pd, "year"), h);
      case EpisodeMetadata =>
        err := SetAttr(AirDate, Get(pd, "date"), h);
        if err.Some? { return; }
        err := SetAttr(EpisodeNumber, Get(pd, "episode"), h);
        if err.Some? { return; }
        err := SetAttr(Season, Get(pd, "season"), h);
        if err.Some? { return; }
        err := SetAttr(Series, Get(pd, "title"), h);
        if err.Some? { return; }
        var alt := Get(pd, "alternative_title");
        if Truthy(alt) {
          err := SetAttr(Series, Some(Str(PyStr(At(attrs, Series), h) + " " + PyStr(alt, h))), h);
        }
    }

    /** `__post_init__(file_path)` of this object's class. */
    method PostInit(file: FilePath, h: Helpers) returns (err: Option<Error>)
      modifies this`attrs, this`pathData
      ensures PostInitSpec(variant, old(attrs), file, h).Ok? ==> err.None? && attrs == PostInitSpec(variant, old(attrs), file, h).value
      ensures PostInitSpec(variant, old(attrs), file, h).Err? ==> err == Some(PostInitSpec(variant, old(attrs), file, h).error)
    {
      var raw := RawData(file, TypeOption(At(attrs, MediaKind)));
      err := ParsePathData(raw);
      if err.Some? {
        return;
      }
      err := SetCommon(pathData, file.suffix, h);
      if err.Some? {
        return;
      }
      err := SetVariant(pathData, h);
    }

    /** The field assignments of the generated `__init__`, on a fresh object. */
    method AssignArgs(args: Record, h: Helpers) returns (err: Option<Error>)
      modifies this`attrs
      ensures AssignFields(variant, old(attrs), args, |FieldsOf(variant)|, h) == if err.None? then Ok(attrs) else Err(err.value)
    {
      var fields := FieldsOf(variant);
      ghost var start := attrs;
      var i := 0;
      while i < |fields|
        invariant 0 <= i <= |fields|
        invariant AssignFields(variant, start, args, i, h) == Ok(attrs)
      {
        var f := fields[i];
        var v := if f in args then args[f] else Default(variant, f);
        AssignFieldsStep(variant, start, args, i, h);
        err := SetAttr(f, v, h);
        if err.Some? {
          InitStaysFailed(variant, start, args, i + 1, h);
          return;
        }
        i := i + 1;
      }
      return None;
    }

    /**
     * The generated `__init__` on a fresh object: each field from args or its
     * default, through `__setattr__`, then `__post_init__` when a path is given.
     */
    method Init(args: Record, file: Option<FilePath>, h: Helpers) returns (err: Option<Error>)
      requires attrs == map[]
      modifies this`attrs, this`pathData
      ensures InitSpec(variant, args, file, h).Ok? ==> err.None? && attrs == InitSpec(variant, args, file, h).value
      ensures InitSpec(variant, args, file, h).Err? ==> err == Some(InitSpec(variant, args, file, h).error)
    {
      err := AssignArgs(args, h);
      if err.Some? {
        return;
      }
      if file.Some? {
        err := PostInit(file.value, h);
      }
    }
  }

  /** What the first n steps of `update` leave: each field other holds a value for takes that value. */
  function Overlay(fields: seq<Field>, mine: Record, theirs: Record): Record {
    if fields == [] then mine
    else
      var r := Overlay(fields[..|fields| - 1], mine, theirs);
      var f := fields[|fields| - 1];
      if At(theirs, f).Some? then r[f := At(theirs, f)] else r
  }

  /** Once an assignment of `__init__` fails, construction fails with that error. */
  lemma {:induction false} InitStaysFailed(variant: Variant, start: Record, args: Record, n: nat, h: Helpers)
    requires 0 < n <= |FieldsOf(variant)|
    requires AssignFields(variant, start, args, n, h).Err?
    ensures AssignFields(variant, start, args, |FieldsOf(variant)|, h) == AssignFields(variant, start, args, n, h)
    decreases |FieldsOf(variant)| - n
  {
    if n < |FieldsOf(variant)| {
      InitStaysFailed(variant, start, args, n + 1, h);
    }
  }

  lemma FailStays(raw: Dict, n: nat)
    requires 0 < n <= |raw| && FilterPathData(raw, n - 1).Ok? && KeepValue(raw[n - 1].1) == Fail
    ensures FilterPathData(raw, |raw|) == Err(IndexError)
  {
    if n < |raw| {
      FilterPathDataFails(raw, |raw|, n - 1);
    }
  }

  /** `parse_metadata(file_path, media_hint)`. */
  method ParseMetadata(file: FilePath, hint: Option<MediaType>, h: Helpers) returns (r: Result<Metadata>)
    ensures ParseSpec(file, hint, h).Ok? <==> r.Ok?
    ensures r.Ok? ==> (fresh(r.value) && (r.value.variant, r.value.attrs) == ParseSpec(file, hint, h).value)
    ensures r.Err? ==> r.error == ParseSpec(file, hint, h).error
  {
    var base := new Metadata(BaseMetadata);
    var err := base.Init(map[MediaKind := if hint.Some? then Some(Media(hint.value)) else None], Some(file), h);
    if err.Some? {
      return Err(err.value);
    }
    var variant := DerivedClass(At(base.attrs, MediaKind));
    if variant.Err? {
      return Err(variant.error);
    }
    var meta := new Metadata(variant.value);
    err := meta.Init(base.attrs, Some(file), h);
    if err.Some? {
      return Err(err.value);
    }
    return Ok(meta);
  }

  // ---------------------------------------------------------------------------
  // properties

  /** After `update`, a field takes other's value when other holds one, and keeps its own otherwise. */
  lemma {:induction false} OverlaySpec(fields: seq<Field>, mine: Record, theirs: Record, f: Field)
    ensures At(Overlay(fields, mine, theirs), f) == if f in fields && At(theirs, f).Some? then At(theirs, f) else At(mine, f)
  {
    if fields != [] {
      var init := fields[..|fields| - 1];
      OverlaySpec(init, mine, theirs, f);
      assert fields == init + [fields[|fields| - 1]];
    }
  }

  /** Updating twice from the same record is the same as updating once. */
  lemma OverlayIdempotent(fields: seq<Field>, mine: Record, theirs: Record, f: Field)
    ensures At(Overlay(fields, Overlay(fields, mine, theirs), theirs), f) == At(Overlay(fields, mine, theirs), f)
  {
    OverlaySpec(fields, mine, theirs, f);
    OverlaySpec(fields, Overlay(fields, mine, theirs), theirs, f);
  }

  /** A record only holds fields its class declares. */
  predicate Declared(variant: Variant, rec: Record) {
    forall f :: f in rec ==> HasField(variant, f)
  }

  lemma AssignDeclared(variant: Variant, rec: Record, f: Field, v: Option<Value>, h: Helpers)
    requires Declared(variant, rec) && HasField(variant, f) && Assign(rec, f, v, h).Ok?
    ensures Declared(variant, Assign(rec, f, v, h).value)
  {
  }

  lemma {:induction false} AssignFieldsDeclared(variant: Variant, args: Record, n: nat, h: Helpers)
    requires n <= |FieldsOf(variant)| && AssignFields(variant, map[], args, n, h).Ok?
    ensures Declared(variant, AssignFields(variant, map[], args, n, h).value)
  {
    if n > 0 {
      AssignFieldsDeclared(variant, args, n - 1, h);
      var f := FieldsOf(variant)[n - 1];
      AssignDeclared(variant, AssignFields(variant, map[], args, n - 1, h).value, f, if f in args then args[f] else Default(variant, f), h);
    }
  }

  /** Construction, with or without a path, yields a record holding only its class's fields. */
  lemma InitDeclared(variant: Variant, args: Record, file: Option<FilePath>, h: Helpers)
    requires InitSpec(variant, args, file, h).Ok?
    ensures Declared(variant, InitSpec(variant, args, file, h).value)
  {
    var n := |FieldsOf(variant)|;
    AssignFieldsDeclared(variant, args, n, h);
    if file.Some? {
      var rec := AssignFields(variant, map[], args, n, h).value;
      var raw := RawData(file.value, TypeOption(At(rec, MediaKind)));
      var pd := FilterPathData(raw, |raw|).value;
      CommonDeclared(variant, rec, pd, file.value.suffix, h);
      VariantDeclared(variant, CommonFields(rec, pd, file.value.suffix, h).value, pd, h);
    }
  }

  lemma CommonDeclared(variant: Variant, rec: Record, pd: Dict, suffix: string, h: Helpers)
    requires Declared(variant, rec) && CommonFields(rec, pd, suffix, h).Ok?
    ensures Declared(variant, CommonFields(rec, pd, suffix, h).value)
    ensures At(CommonFields(rec, pd, suffix, h).value, MediaKind).Some?
    ensures At(CommonFields(rec, pd, suffix, h).value, MediaKind).value.Media?
  {
    var t := ToMediaType(Get(pd, "type").value).value;
    var r1 := Assign(rec, MediaKind, Some(Media(t)), h).value;
    var q := QualityJoin(pd).value;
    var vq := if q == "" then None else Some(Str(q));
    var r2 := Assign(r1, Quality, vq, h).value;
    var r3 := Assign(r2, Language, Get(pd, "subtitle_language"), h).value;
    var r4 := Assign(r3, Group, Get(pd, "release_group"), h).value;
    var vc := if suffix == "" then None else Some(Str(suffix));
    assert CommonFields(rec, pd, suffix, h) == Assign(r4, Container, vc, h);
    AssignDeclared(variant, rec, MediaKind, Some(Media(t)), h);
    AssignDeclared(variant, r1, Quality, vq, h);
    AssignDeclared(variant, r2, Language, Get(pd, "subtitle_language"), h);
    AssignDeclared(variant, r3, Group, Get(pd, "release_group"), h);
    AssignDeclared(variant, r4, Container, vc, h);
    AssignKeeps(r1, Quality, MediaKind, vq, h);
    AssignKeeps(r2, Language, MediaKind, Get(pd, "subtitle_language"), h);
    AssignKeeps(r3, Group, MediaKind, Get(pd, "release_group"), h);
    AssignKeeps(r4, Container, MediaKind, vc, h);
  }

  /** An assignment leaves every other field as it was. */
  lemma AssignKeeps(rec: Record, f: Field, g: Field, v: Option<Value>, h: Helpers)
    requires f != g && Assign(rec, f, v, h).Ok?
    ensures At(Assign(rec, f, v, h).value, g) == At(rec, g)
  {
  }

  lemma VariantDeclared(variant: Variant, rec: Record, pd: Dict, h: Helpers)
    requires Declared(variant, rec) && VariantFields(variant, rec, pd, h).Ok?
    ensures Declared(variant, VariantFields(variant, rec, pd, h).value)
    ensures At(VariantFields(variant, rec, pd, h).value, MediaKind) == At(rec, MediaKind)
  {
    match variant
    case BaseMetadata =>
    case MovieMetadata => MovieDeclared(rec, pd, h);
    case EpisodeMetadata => EpisodeDeclared(rec, pd, h);
  }

  lemma MovieDeclared(rec: Record, pd: Dict, h: Helpers)
    requires Declared(MovieMetadata, rec) && VariantFields(MovieMetadata, rec, pd, h).Ok?
    ensures Declared(MovieMetadata, VariantFields(MovieMetadata, rec, pd, h).value)
    ensures At(VariantFields(MovieMetadata, rec, pd, h).value, MediaKind) == At(rec, MediaKind)
  {
  }

  lemma EpisodeDeclared(rec: Record, pd: Dict, h: Helpers)
    requires Declared(EpisodeMetadata, rec) && VariantFields(EpisodeMetadata, rec, pd, h).Ok?
    ensures Declared(EpisodeMetadata, VariantFields(EpisodeMetadata, rec, pd, h).value)
    ensures At(VariantFields(EpisodeMetadata, rec, pd, h).value, MediaKind) == At(rec, MediaKind)
  {
  }

  /**
   * The class dispatch of `parse_metadata`: a base record that learnt the
   * episode media type gives a MetadataEpisode, one that learnt the movie
   * type a MetadataMovie.
   */
  lemma ParseClass(file: FilePath, hint: Option<MediaType>, h: Helpers)
    requires InitSpec(BaseMetadata, map[MediaKind := if hint.Some? then Some(Media(hint.value)) else None], Some(file), h).Ok?
    ensures var base := InitSpec(BaseMetadata, map[MediaKind := if hint.Some? then Some(Media(hint.value)) else None], Some(file), h).value;
      && (At(base, MediaKind) == Some(Media(Episode)) ==>
            ParseSpec(file, hint, h).Ok? ==> ParseSpec(file, hint, h).value.0 == EpisodeMetadata)
      && (At(base, MediaKind) == Some(Media(Movie)) ==>
            ParseSpec(file, hint, h).Ok? ==> ParseSpec(file, hint, h).value.0 == MovieMetadata)
  {
  }

  /**
   * `parse_metadata` never returns a base record, and the record it returns
   * holds a MediaType member in `media` and only its class's fields.
   */
  lemma ParseOutcome(file: FilePath, hint: Option<MediaType>, h: Helpers)
    requires ParseSpec(file, hint, h).Ok?
    ensures ParseSpec(file, hint, h).value.0 != BaseMetadata
    ensures Declared(ParseSpec(file, hint, h).value.0, ParseSpec(file, hint, h).value.1)
    ensures At(ParseSpec(file, hint, h).value.1, MediaKind).Some?
    ensures At(ParseSpec(file, hint, h).value.1, MediaKind).value.Media?
  {
    var base := InitSpec(BaseMetadata, map[MediaKind := if hint.Some? then Some(Media(hint.value)) else None], Some(file), h).value;
    var variant := DerivedClass(At(base, MediaKind)).value;
    InitDeclared(variant, base, Some(file), h);
    var n := |FieldsOf(variant)|;
    var rec := AssignFields(variant, map[], base, n, h).value;
    var raw := RawData(file, TypeOption(At(rec, MediaKind)));
    var pd := FilterPathData(raw, |raw|).value;
    AssignFieldsDeclared(variant, base, n, h);
    CommonDeclared(variant, rec, pd, file.suffix, h);
    VariantDeclared(variant, CommonFields(rec, pd, file.suffix, h).value, pd, h);
  }
}
