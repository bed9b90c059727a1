/**
 * The part of `meta_parse` in mnamer/__main__.py that follows the guessit
 * call: the media hint handed to guessit, and the mapping of guessit's
 * attribute dictionary onto a movie or television metadata object of the
 * `mapi` package.
 */
module Parsing {
  import opened Values
  import opened Text
  import opened Meta

  /** The two `mapi` metadata classes `meta_parse` instantiates. */
  datatype MapiClass = MapiMovie | MapiTelevision

  /** A `mapi` metadata object: its class and the items set on it. */
  datatype Mapi = Mapi(cls: MapiClass, items: map<string, Value>)

  /** The `{'television': 'episode', 'tv': 'episode', 'movie': 'movie'}.get(media)` lookup. */
  function MediaHint(media: Option<Value>): (r: Option<string>)
    ensures r.Some? ==> r.value == "episode" || r.value == "movie"
    ensures media.None? ==> r.None?
  {
    if media == Some(Str("television")) || media == Some(Str("tv")) then Some("episode")
    else if media == Some(Str("movie")) then Some("movie")
    else None
  }

  /** The hint is "episode" for the two television names, "movie" for "movie", and absent otherwise. */
  lemma MediaHintSpec(media: Option<Value>)
    ensures MediaHint(media) == Some("episode") <==> media == Some(Str("television")) || media == Some(Str("tv"))
    ensures MediaHint(media) == Some("movie") <==> media == Some(Str("movie"))
    ensures MediaHint(media).None? <==> !(media in {Some(Str("television")), Some(Str("tv")), Some(Str("movie"))})
  {
  }

  /** Python's `<` on two strings: code points compared from the left, a proper prefix first. */
  predicate StrLess(a: string, b: string) {
    if a == [] then b != []
    else if b == [] then false
    else if a[0] != b[0] then a[0] < b[0]
    else StrLess(a[1..], b[1..])
  }

  lemma {:induction false} StrLessTotal(a: string, b: string)
    ensures a == b || StrLess(a, b) || StrLess(b, a)
    ensures !(StrLess(a, b) && StrLess(b, a))
  {
    if a != [] && b != [] && a[0] == b[0] {
      StrLessTotal(a[1..], b[1..]);
      if a[1..] == b[1..] {
        assert a == [a[0]] + a[1..] && b == [b[0]] + b[1..];
      }
    }
  }

  lemma {:induction false} StrLessTrans(a: string, b: string, c: string)
    requires StrLess(a, b) && StrLess(b, c)
    ensures StrLess(a, c)
  {
    if a != [] && a[0] == b[0] && b[0] == c[0] {
      StrLessTrans(a[1..], b[1..], c[1..]);
    }
  }

  /** The smallest integer of a list, as `sorted(xs)[0]`. */
  function MinInt(xs: seq<int>): (m: int)
    requires xs != []
    ensures m in xs && forall x :: x in xs ==> m <= x
  {
    if |xs| == 1 then xs[0]
    else
      var m := MinInt(xs[1..]);
      assert forall x :: x in xs ==> x == xs[0] || x in xs[1..];
      if m < xs[0] then m else xs[0]
  }

  /** The smallest string of a list, as `sorted(xs)[0]`. */
  function MinStr(xs: seq<string>): (m: string)
    requires xs != []
    ensures m in xs && forall x :: x in xs ==> !StrLess(x, m)
  {
    if |xs| == 1 then
      StrLessTotal(xs[0], xs[0]);
      xs[0]
    else
      var m := MinStr(xs[1..]);
      assert forall x :: x in xs ==> x == xs[0] || x in xs[1..];
      if StrLess(m, xs[0]) then
        StrLessTotal(m, xs[0]);
        assert forall x :: x in xs[1..] ==> !StrLess(x, m);
        m
      else
        MinStrFirst(xs, m);
        xs[0]
  }

  /** When the head is no larger than the tail's minimum, nothing in the list is below the head. */
  lemma MinStrFirst(xs: seq<string>, m: string)
    requires |xs| > 1 && !StrLess(m, xs[0])
    requires forall x :: x in xs[1..] ==> !StrLess(x, m)
    ensures forall x :: x in xs ==> !StrLess(x, xs[0])
  {
    forall x | x in xs ensures !StrLess(x, xs[0]) {
      StrLessTotal(xs[0], xs[0]);
      if x != xs[0] {
        assert x in xs[1..];
        StrLessTotal(m, xs[0]);
        if StrLess(x, xs[0]) {
          StrLessTotal(x, m);
          if x != m {
            StrLessTrans(m, x, xs[0]);
          }
        }
      }
    }
  }

  predicate AllInt(items: seq<Value>) { forall i :: 0 <= i < |items| ==> items[i].Int? }

  predicate AllStr(items: seq<Value>) { forall i :: 0 <= i < |items| ==> items[i].Str? }

  function Ints(items: seq<Value>): (r: seq<int>)
    requires AllInt(items)
    ensures |r| == |items| && forall i :: 0 <= i < |items| ==> r[i] == items[i].i
  {
    if items == [] then [] else [items[0].i] + Ints(items[1..])
  }

  function Strs(items: seq<Value>): (r: seq<string>)
    requires AllStr(items)
    ensures |r| == |items| && forall i :: 0 <= i < |items| ==> r[i] == items[i].s
  {
    if items == [] then [] else [items[0].s] + Strs(items[1..])
  }

  /**
   * `sorted(items)[0]`: an empty list has no first element; ints and strs
   * give their minimum; a single element is never compared; any other
   * list is taken to hold values that cannot be ordered.
   */
  function Lowest(items: seq<Value>): (r: Result<Value>)
    ensures r.Ok? ==> r.value in items
    ensures r.Err? <==> items == [] || (|items| > 1 && !AllInt(items) && !AllStr(items))
    ensures r.Err? ==> r.error == (if items == [] then IndexError else TypeError)
  {
    if items == [] then Err(IndexError)
    else if AllInt(items) then
      var m := MinInt(Ints(items));
      var i :| 0 <= i < |items| && Ints(items)[i] == m;
      assert items[i] == Int(m);
      Ok(Int(m))
    else if AllStr(items) then
      var m := MinStr(Strs(items));
      var i :| 0 <= i < |items| && Strs(items)[i] == m;
      assert items[i] == Str(m);
      Ok(Str(m))
    else if |items| == 1 then Ok(items[0])
    else Err(TypeError)
  }

  /** `str(data['episode'])`, or of the lowest episode when guessit found several. */
  function EpisodeText(v: Value, h: Helpers): Result<Value> {
    if v.List? then
      var low :- Lowest(v.items);
      Ok(Str(PyStr(Some(low), h)))
    else Ok(Str(PyStr(Some(v), h)))
  }

  /** The items of the movie branch: title, the year as a date, and the media. */
  function MovieItems(data: Dict, h: Helpers): map<string, Value> {
    var items := map[];
    var items := if Get(data, "title").Some? then items["title" := Get(data, "title").value] else items;
    var items := if Get(data, "year").Some? then items["date" := Str(PyStr(Get(data, "year"), h) + "-01-01")] else items;
    items["media" := Str("movie")]
  }

  /** The items of the episode branch before the episode number: series, season and date. */
  function EpisodeItems(data: Dict, h: Helpers): map<string, Value> {
    var items := map[];
    var items := if Get(data, "title").Some? then items["series" := Get(data, "title").value] else items;
    var items := if Get(data, "season").Some? then items["season" := Str(PyStr(Get(data, "season"), h))] else items;
    if Get(data, "date").Some? then items["date" := Str(PyStr(Get(data, "date"), h))] else items
  }

  /** The branch on guessit's `type`: the object and its media-specific items. */
  function Typed(data: Dict, h: Helpers): (r: Result<Mapi>)
    ensures r.Ok? ==> (r.value.cls == MapiMovie <==> Get(data, "type") == Some(Str("movie")))
    ensures Get(data, "type") != Some(Str("movie")) && Get(data, "type") != Some(Str("episode")) ==> r == Err(ValueError)
  {
    var kind := Get(data, "type");
    if kind == Some(Str("movie")) then Ok(Mapi(MapiMovie, MovieItems(data, h)))
    else if kind == Some(Str("episode")) then
      var items := EpisodeItems(data, h);
      if Get(data, "episode").Some? then
        var e :- EpisodeText(Get(data, "episode").value, h);
        Ok(Mapi(MapiTelevision, items["episode" := e]))
      else Ok(Mapi(MapiTelevision, items))
    else Err(ValueError)
  }

  /** The guessit keys that make up `quality`. */
  predicate QualityName(k: string) {
    k == "audio_profile" || k == "screen_size" || k == "video_codec" || k == "video_profile"
  }

  /** The values of the quality keys, in the dictionary's order. */
  function QualityValues(data: Dict): (r: seq<Value>)
    ensures |r| <= |data|
  {
    if data == [] then []
    else QualityValues(data[..|data| - 1]) + (if QualityName(data[|data| - 1].0) then [data[|data| - 1].1] else [])
  }

  /** `list(s)`: the one-character strs of s, as `list += s` appends them. */
  function CharList(s: string): (r: seq<Value>)
    ensures |r| == |s| && forall i :: 0 <= i < |s| ==> r[i] == Str([s[i]])
  {
    if s == [] then [] else [Str([s[0]])] + CharList(s[1..])
  }

  /**
   * `quality` after the loop over vs: the first value as is, each later one
   * added after a space. `' ' + v` needs v to be a str; a str accumulator
   * then concatenates, and a list accumulator is extended in place by the
   * characters of `' ' + v`; any other accumulator raises TypeError.
   */
  function QualityOf(vs: seq<Value>): (r: Result<Option<Value>>)
    ensures r == Ok(None) <==> vs == []
    ensures r.Err? ==> r.error == TypeError
  {
    if vs == [] then Ok(None)
    else
      var q :- QualityOf(vs[..|vs| - 1]);
      var v := vs[|vs| - 1];
      if q.None? then Ok(Some(v))
      else if q.value.Str? && v.Str? then Ok(Some(Str(q.value.s + " " + v.s)))
      else if q.value.List? && v.Str? then Ok(Some(List(q.value.items + CharList(" " + v.s))))
      else Err(TypeError)
  }

  /** The items set on either kind of object: quality, the release group and the extension. */
  function Finish(items: map<string, Value>, q: Option<Value>, group: Option<Value>, suffix: string): map<string, Value> {
    var items := if q.Some? then items["quality" := q.value] else items;
    var items := if group.Some? then items["group" := group.value] else items;
    if suffix != "" then items["extension" := Str(suffix)] else items
  }

  /** The object `meta_parse` returns, or the exception it raises. */
  function MetaParseSpec(data: Dict, suffix: string, h: Helpers): Result<Mapi> {
    var m :- Typed(data, h);
    var q :- QualityOf(QualityValues(data));
    Ok(Mapi(m.cls, Finish(m.items, q, Get(data, "release_group"), suffix)))
  }

  /**
   * `meta_parse(path, media)` after the resolved path `absPath` and the
   * suffix of `path` are known; `guess` stands for guessit.
   */
  method MetaParse(absPath: string, suffix: string, media: Option<Value>,
                   guess: (string, Option<string>) -> Dict, h: Helpers) returns (r: Result<Mapi>)
    ensures r == MetaParseSpec(guess(absPath, MediaHint(media)), suffix, h)
  {
    var data := guess(absPath, MediaHint(media));
    var meta :- Typed(data, h);
    var items := meta.items;
    var vs := QualityValues(data);
    var quality: Option<Value> := None;
    for i := 0 to |vs|
      invariant QualityOf(vs[..i]) == Ok(quality)
    {
      assert vs[..i + 1][..i] == vs[..i];
      if quality.None? {
        quality := Some(vs[i]);
      } else if quality.value.Str? && vs[i].Str? {
        quality := Some(Str(quality.value.s + " " + vs[i].s));
      } else if quality.value.List? && vs[i].Str? {
        quality := Some(List(quality.value.items + CharList(" " + vs[i].s)));
      } else {
        QualityPrefix(vs, i + 1);
        return Err(TypeError);
      }
    }
    assert vs[..|vs|] == vs;
    if quality.Some? {
      items := items["quality" := quality.value];
    }
    var group := Get(data, "release_group");
    if group.Some? {
      items := items["group" := group.value];
    }
    if suffix != "" {
      items := items["extension" := Str(suffix)];
    }
    return Ok(Mapi(meta.cls, items));
  }

  /** A failure part-way through the quality loop is the loop's failure. */
  lemma {:induction false} QualityPrefix(vs: seq<Value>, i: nat)
    requires i <= |vs|
    ensures QualityOf(vs[..i]).Err? ==> QualityOf(vs) == QualityOf(vs[..i])
    decreases |vs| - i
  {
    if i < |vs| {
      QualityPrefix(vs, i + 1);
      assert vs[..i + 1][..i] == vs[..i];
    } else {
      assert vs[..i] == vs;
    }
  }

  /** The quality loop only ever raises TypeError. */
  lemma {:induction false} QualityError(vs: seq<Value>)
    ensures QualityOf(vs).Err? ==> QualityOf(vs).error == TypeError
  {
    if vs != [] {
      QualityError(vs[..|vs| - 1]);
    }
  }

  /**
   * A list as the first quality value is extended, not joined: a later str
   * adds a space and then its characters, one element each.
   */
  lemma QualityListExtends(xs: seq<Value>, s: string)
    ensures QualityOf([List(xs), Str(s)]) == Ok(Some(List(xs + CharList(" " + s))))
    ensures |QualityOf([List(xs), Str(s)]).value.value.items| == |xs| + 1 + |s|
  {
    assert [List(xs), Str(s)][..1] == [List(xs)];
    assert [List(xs)][..0] == [];
  }

  /** Quality tokens that are all strings are joined with single spaces, in the dictionary's order. */
  lemma {:induction false} QualityJoined(vs: seq<Value>)
    requires vs != [] && AllStr(vs)
    ensures QualityOf(vs) == Ok(Some(Str(Join(" ", Strs(vs)))))
  {
    if |vs| > 1 {
      var init := vs[..|vs| - 1];
      QualityJoined(init);
      assert Strs(vs)[..|vs| - 1] == Strs(init);
    }
  }

  /**
   * `meta_parse` raises ValueError exactly when guessit's `type` is neither
   * "movie" nor "episode"; no later step raises it.
   */
  lemma ParseValueError(data: Dict, suffix: string, h: Helpers)
    ensures MetaParseSpec(data, suffix, h) == Err(ValueError) <==>
      Get(data, "type") != Some(Str("movie")) && Get(data, "type") != Some(Str("episode"))
  {
    QualityError(QualityValues(data));
  }

  /** The common items leave every other item of the branch as it was. */
  lemma FinishKeeps(items: map<string, Value>, q: Option<Value>, group: Option<Value>, suffix: string, k: string)
    requires k != "quality" && k != "group" && k != "extension"
    ensures k in Finish(items, q, group, suffix) <==> k in items
    ensures k in items ==> Finish(items, q, group, suffix)[k] == items[k]
  {
  }

  /** What a successful parse holds is what the branch on `type` set, apart from the common items. */
  lemma ParseKeeps(data: Dict, suffix: string, h: Helpers, k: string)
    requires MetaParseSpec(data, suffix, h).Ok? && k != "quality" && k != "group" && k != "extension"
    ensures Typed(data, h).Ok? && MetaParseSpec(data, suffix, h).value.cls == Typed(data, h).value.cls
    ensures k in MetaParseSpec(data, suffix, h).value.items <==> k in Typed(data, h).value.items
    ensures k in Typed(data, h).value.items ==> MetaParseSpec(data, suffix, h).value.items[k] == Typed(data, h).value.items[k]
  {
    FinishKeeps(Typed(data, h).value.items, QualityOf(QualityValues(data)).value, Get(data, "release_group"), suffix, k);
  }

  /**
   * A movie: a movie object whose media is "movie", whose title is
   * guessit's title when there is one, and whose date is the first of
   * January of guessit's year when there is one.
   */
  lemma ParseMovie(data: Dict, suffix: string, h: Helpers)
    requires Get(data, "type") == Some(Str("movie")) && QualityOf(QualityValues(data)).Ok?
    ensures var r := MetaParseSpec(data, suffix, h);
      && r.Ok? && r.value.cls == MapiMovie
      && "media" in r.value.items && r.value.items["media"] == Str("movie")
      && ("title" in r.value.items <==> Get(data, "title").Some?)
      && (Get(data, "title").Some? ==> r.value.items["title"] == Get(data, "title").value)
      && ("date" in r.value.items <==> Get(data, "year").Some?)
      && (Get(data, "year").Some? ==> r.value.items["date"] == Str(PyStr(Get(data, "year"), h) + "-01-01"))
  {
    MovieKeys(data, h);
    ParseKeeps(data, suffix, h, "media");
    ParseKeeps(data, suffix, h, "title");
    ParseKeeps(data, suffix, h, "date");
  }

  lemma MovieKeys(data: Dict, h: Helpers)
    requires Get(data, "type") == Some(Str("movie"))
    ensures Typed(data, h) == Ok(Mapi(MapiMovie, MovieItems(data, h)))
    ensures var items := MovieItems(data, h);
      && "media" in items && items["media"] == Str("movie")
      && ("title" in items <==> Get(data, "title").Some?)
      && (Get(data, "title").Some? ==> items["title"] == Get(data, "title").value)
      && ("date" in items <==> Get(data, "year").Some?)
      && (Get(data, "year").Some? ==> items["date"] == Str(PyStr(Get(data, "year"), h) + "-01-01"))
  {
  }

  /**
   * An episode whose guessit `episode` is a non-empty list of ints: a
   * television object whose episode is the text of the lowest of them.
   */
  lemma ParseLowestEpisode(data: Dict, suffix: string, h: Helpers)
    requires Get(data, "type") == Some(Str("episode")) && QualityOf(QualityValues(data)).Ok?
    requires Get(data, "episode").Some? && Get(data, "episode").value.List?
    requires var items := Get(data, "episode").value.items; items != [] && AllInt(items)
    ensures var r := MetaParseSpec(data, suffix, h);
      && r.Ok? && r.value.cls == MapiTelevision && "episode" in r.value.items
      && exists n ::
        && r.value.items["episode"] == Str(IntToString(n))
        && Int(n) in Get(data, "episode").value.items
        && forall v :: v in Get(data, "episode").value.items ==> n <= v.i
  {
    var items := Get(data, "episode").value.items;
    var n := MinInt(Ints(items));
    forall v | v in items ensures n <= v.i {
      var i :| 0 <= i < |items| && items[i] == v;
      assert Ints(items)[i] in Ints(items);
    }
    var j :| 0 <= j < |items| && Ints(items)[j] == n;
    assert items[j] == Int(n);
    assert Typed(data, h) == Ok(Mapi(MapiTelevision, EpisodeItems(data, h)["episode" := Str(IntToString(n))]));
    ParseKeeps(data, suffix, h, "episode");
  }

  /**
   * An episode: a television object whose series is guessit's title and
   * whose season is the text of guessit's season, each when present.
   */
  lemma ParseEpisode(data: Dict, suffix: string, h: Helpers)
    requires Get(data, "type") == Some(Str("episode"))
    requires MetaParseSpec(data, suffix, h).Ok?
    ensures var r := MetaParseSpec(data, suffix, h);
      && r.value.cls == MapiTelevision
      && ("series" in r.value.items <==> Get(data, "title").Some?)
      && (Get(data, "title").Some? ==> r.value.items["series"] == Get(data, "title").value)
      && ("season" in r.value.items <==> Get(data, "season").Some?)
      && (Get(data, "season").Some? ==> r.value.items["season"] == Str(PyStr(Get(data, "season"), h)))
  {
    EpisodeKeys(data, h);
    ParseKeeps(data, suffix, h, "series");
    ParseKeeps(data, suffix, h, "season");
  }

  lemma EpisodeKeys(data: Dict, h: Helpers)
    requires Get(data, "type") == Some(Str("episode")) && Typed(data, h).Ok?
    ensures Typed(data, h).value.cls == MapiTelevision
    ensures var items := Typed(data, h).value.items;
      && ("series" in items <==> Get(data, "title").Some?)
      && (Get(data, "title").Some? ==> items["series"] == Get(data, "title").value)
      && ("season" in items <==> Get(data, "season").Some?)
      && (Get(data, "season").Some? ==> items["season"] == Str(PyStr(Get(data, "season"), h)))
  {
  }

  /**
   * The items set on either kind of object: the release group as `group`,
   * the file's suffix as `extension` when it has one, and `quality` exactly
   * when guessit found one of the quality keys.
   */
  lemma ParseCommon(data: Dict, suffix: string, h: Helpers)
    requires MetaParseSpec(data, suffix, h).Ok?
    ensures var r := MetaParseSpec(data, suffix, h);
      && ("extension" in r.value.items <==> suffix != "")
      && (suffix != "" ==> r.value.items["extension"] == Str(suffix))
      && (Get(data, "release_group").Some? ==> "group" in r.value.items && r.value.items["group"] == Get(data, "release_group").value)
      && ("quality" in r.value.items <==> QualityValues(data) != [])
  {
    var vs := QualityValues(data);
    if vs != [] {
      assert QualityOf(vs).value.Some?;
    }
    TypedOmitsCommon(data, h);
    FinishCommon(Typed(data, h).value.items, QualityOf(vs).value, Get(data, "release_group"), suffix);
  }

  /** Neither branch sets `quality`, `group` or `extension`. */
  lemma TypedOmitsCommon(data: Dict, h: Helpers)
    requires Typed(data, h).Ok?
    ensures var items := Typed(data, h).value.items;
      "quality" !in items && "group" !in items && "extension" !in items
  {
  }

  /** The common items as the last steps set them. */
  lemma FinishCommon(items: map<string, Value>, q: Option<Value>, group: Option<Value>, suffix: string)
    ensures var r := Finish(items, q, group, suffix);
      && ("extension" in r <==> suffix != "" || "extension" in items)
      && (suffix != "" ==> r["extension"] == Str(suffix))
      && (group.Some? ==> "group" in r && r["group"] == group.value)
      && (q.Some? ==> "quality" in r)
      && (q.None? ==> ("quality" in r <==> "quality" in items))
  {
  }
}
