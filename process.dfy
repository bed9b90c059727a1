/**
 * The decision logic of `process_files` in mnamer/__main__.py, with
 * `merge_dicts`: for every crawled file that is not blacklisted, parse it,
 * collect at most `max_hits - 1` search hits, choose one (the first in
 * batch mode, otherwise by prompting), work out the destination, sanitize
 * it and move the file, counting detections and successes.
 *
 * The outside world is a parameter: the file system, the blacklist's
 * regular-expression matcher, guessit, the provider search (the hits it
 * yields before it is exhausted or reports nothing found), `mapi`'s
 * `Metadata.format`, Unicode normalisation, whether creating the parent
 * directory and moving the file succeed, and the lines typed at the prompt.
 */
module Processing {
  import opened Values
  import opened Text
  import opened Meta
  import opened Crawl
  import opened Sanitizing
  import opened Parsing

  /** `merge_dicts(d1, d2)`: a copy of d1 updated with d2. */
  function MergeDicts(d1: map<string, Value>, d2: map<string, Value>): (r: map<string, Value>)
    ensures forall k :: k in r <==> k in d1 || k in d2
    ensures forall k :: k in d2 ==> r[k] == d2[k]
    ensures forall k :: k in d1 && k !in d2 ==> r[k] == d1[k]
  {
    d1 + d2
  }

  /** Layering is associative: merging in two layers one after the other is merging in their merge. */
  lemma MergeAssociative(a: map<string, Value>, b: map<string, Value>, c: map<string, Value>)
    ensures MergeDicts(MergeDicts(a, b), c) == MergeDicts(a, MergeDicts(b, c))
  {
  }

  /** Merging the same overlay twice changes nothing more. */
  lemma MergeIdempotent(a: map<string, Value>, b: map<string, Value>)
    ensures MergeDicts(MergeDicts(a, b), b) == MergeDicts(a, b)
  {
  }

  /** `meta.update(hit)`: the hit's items overwrite the metadata's. */
  function Update(meta: Mapi, hit: Mapi): (r: Mapi)
    ensures r.cls == meta.cls && r.items.Keys == meta.items.Keys + hit.items.Keys
    ensures forall k :: k in hit.items ==> r.items[k] == hit.items[k]
    ensures forall k :: k in meta.items && k !in hit.items ==> r.items[k] == meta.items[k]
  {
    Mapi(meta.cls, MergeDicts(meta.items, hit.items))
  }

  // ---------------------------------------------------------------------------
  // hits and the prompt

  /** How many hits the `while i < max_hits` loop collects from n results. */
  function HitCount(n: nat, maxHits: int): (k: nat)
    ensures k <= n && (maxHits <= 1 ==> k == 0) && (maxHits > 1 ==> k < maxHits)
    ensures k < n ==> (maxHits <= 1 && k == 0) || k == maxHits - 1
  {
    if maxHits <= 1 then 0 else if n < maxHits - 1 then n else maxHits - 1
  }

  /**
   * The hits loop: `i` starts at 1 and each hit found moves it on; the
   * loop ends when `i` reaches `max_hits` or the results run out.
   */
  method CollectHits(results: seq<Mapi>, maxHits: int) returns (hits: seq<Mapi>)
    ensures hits == results[..HitCount(|results|, maxHits)]
  {
    var i := 1;
    hits := [];
    while i < maxHits
      invariant 1 <= i && i - 1 <= |results|
      invariant hits == results[..i - 1]
      invariant i == 1 || i <= maxHits
    {
      if i - 1 == |results| {
        break;
      }
      hits := hits + [results[i - 1]];
      i := i + 1;
    }
  }

  /** What the user chose for a file: apply the hit at an index, skip the file, or quit. */
  datatype Choice = Apply(index: nat) | Skip | Abort

  predicate SkipWord(s: string) { s == "s" || s == "S" || s == "skip" || s == "SKIP" }

  predicate QuitWord(s: string) { s == "q" || s == "Q" || s == "quit" || s == "QUIT" }

  /** One line typed at the prompt for n hits; None when it is invalid and the prompt repeats. */
  function Classify(line: string, n: nat): (r: Option<Choice>)
    ensures r.Some? && r.value.Apply? ==> r.value.index < n || line == ""
    ensures line == "" ==> r == Some(Apply(0))
  {
    if line == "" then Some(Apply(0))
    else if SkipWord(line) then Some(Skip)
    else if QuitWord(line) then Some(Abort)
    else if IsDigits(line) && 0 < DigitsValue(line) < n + 1 then Some(Apply(DigitsValue(line) - 1))
    else None
  }

  /**
   * The lines the prompt accepts: the empty line picks the first hit, the
   * skip and quit words, and the numbers 1 to n pick the hit with that
   * number; nothing else is accepted.
   */
  lemma ClassifySpec(line: string, n: nat, k: nat)
    ensures Classify(line, n) == Some(Skip) <==> SkipWord(line)
    ensures Classify(line, n) == Some(Abort) <==> QuitWord(line)
    ensures Classify(line, n) == Some(Apply(k)) <==>
      (line == "" && k == 0) || (IsDigits(line) && DigitsValue(line) == k + 1 && k < n)
  {
    if SkipWord(line) || QuitWord(line) {
      assert !IsAsciiDigit(line[0]);
    }
  }

  /**
   * The prompt loop from the line at pos on: the choice and the position
   * after the line that made it; the input running out raises EOFError.
   */
  function PromptSpec(inputs: seq<string>, pos: nat, n: nat): (r: Result<(Choice, nat)>)
    ensures r.Ok? ==> pos < r.value.1 <= |inputs|
    ensures r.Ok? && r.value.0.Apply? ==> r.value.0.index < n || (n == 0 && r.value.0.index == 0)
    decreases |inputs| - pos
  {
    if pos >= |inputs| then Err(EOFError)
    else match Classify(inputs[pos], n)
      case Some(c) => Ok((c, pos + 1))
      case None => PromptSpec(inputs, pos + 1, n)
  }

  /** `while True: selection = input(...)`: lines are read until one is accepted. */
  method Prompt(inputs: seq<string>, pos: nat, n: nat) returns (r: Result<(Choice, nat)>)
    ensures r == PromptSpec(inputs, pos, n)
  {
    var p := pos;
    while true
      invariant pos <= p && PromptSpec(inputs, p, n) == PromptSpec(inputs, pos, n)
      decreases |inputs| - p
    {
      if p >= |inputs| {
        return Err(EOFError);
      }
      var selection := inputs[p];
      var c := Classify(selection, n);
      if c.Some? {
        return Ok((c.value, p + 1));
      }
      p := p + 1;
    }
  }

  /**
   * The prompt settles on the first acceptable line: every line before it
   * was rejected, and the input runs out (EOFError) exactly when no line
   * from pos on is acceptable.
   */
  lemma {:induction false} PromptFirst(inputs: seq<string>, pos: nat, n: nat)
    ensures PromptSpec(inputs, pos, n).Ok? ==>
      var j := PromptSpec(inputs, pos, n).value.1 - 1;
      && Classify(inputs[j], n) == Some(PromptSpec(inputs, pos, n).value.0)
      && forall i :: pos <= i < j ==> Classify(inputs[i], n).None?
    ensures PromptSpec(inputs, pos, n).Err? <==> forall i :: pos <= i < |inputs| ==> Classify(inputs[i], n).None?
    ensures PromptSpec(inputs, pos, n).Err? ==> PromptSpec(inputs, pos, n).error == EOFError
    decreases |inputs| - pos
  {
    if pos < |inputs| && Classify(inputs[pos], n).None? {
      PromptFirst(inputs, pos + 1, n);
    }
  }

  // ---------------------------------------------------------------------------
  // one file

  /** The settings `process_files` reads from its configuration. */
  datatype Config = Config(
    recurse: bool,
    extensionMask: Option<seq<string>>,
    blacklist: seq<string>,
    hasVerbose: bool,
    maxHits: int,
    batch: bool,
    scene: bool,
    replacements: Option<seq<(string, string)>>,
    lookup: string -> Option<string>)

  /** The outside world. */
  datatype World = World(
    fs: FileSystem,
    stem: Path -> string,
    matches: (string, string) -> bool,
    guess: (string, Option<string>) -> Dict,
    search: Mapi -> seq<Mapi>,
    format: (Mapi, Option<string>) -> string,
    nfkd: string -> string,
    moved: (Path, string) -> bool,
    h: Helpers)

  /** Some blacklist pattern matches the start of the file's lower-cased stem. */
  predicate Blacklisted(w: World, cfg: Config, file: Path) {
    exists i :: 0 <= i < |cfg.blacklist| && w.matches(cfg.blacklist[i], Lower(w.stem(file)))
  }

  /** `meta['media']`; a television object that was never given one reports "television". */
  function MediaOf(meta: Mapi): Value {
    if "media" in meta.items then meta.items["media"]
    else if meta.cls == MapiMovie then Str("movie") else Str("television")
  }

  /** The destination: the formatted template, under the formatted destination directory when one is configured, sanitized. */
  function DestPath(w: World, cfg: Config, meta: Mapi): (r: Result<string>)
    ensures r.Err? <==> cfg.replacements.None?
    ensures r.Err? ==> r.error == TypeError
  {
    var media := PyStr(Some(MediaOf(meta)), w.h);
    var name := w.format(meta, cfg.lookup(media + "_template"));
    var dir := cfg.lookup(media + "_destination");
    var full := if dir.Some? && dir.value != "" then w.format(meta, dir) + "/" + name else name;
    SanitizeSpec(full, cfg.scene, cfg.replacements, w.nfkd, w.h.cc)
  }

  /** The counters and the state carried from one file to the next. */
  datatype Run = Run(detected: nat, succeeded: nat, hint: Option<Value>, pos: nat, aborted: bool)

  /** Batch mode takes the first hit without reading input; otherwise the prompt decides. */
  function Selection(cfg: Config, inputs: seq<string>, pos: nat, n: nat): (r: Result<(Choice, nat)>)
    ensures r.Ok? && r.value.0.Apply? && n > 0 ==> r.value.0.index < n
  {
    if cfg.batch then Ok((Apply(0), pos)) else PromptSpec(inputs, pos, n)
  }

  /**
   * Renaming a file once a hit is applied: the destination, then the move;
   * a move that fails is not a success. With `leak` the `media` parameter
   * is overwritten by the file's media, as the code does.
   */
  function Relocate(w: World, cfg: Config, testRun: bool, st: Run, file: Path, meta: Mapi, leak: bool): (r: Result<Run>)
    ensures r.Err? <==> DestPath(w, cfg, meta).Err?
    ensures r.Ok? ==> (r.value.succeeded == st.succeeded + 1 <==> testRun || w.moved(file, DestPath(w, cfg, meta).value))
  {
    var dest :- DestPath(w, cfg, meta);
    var ok := testRun || w.moved(file, dest);
    Ok(st.(succeeded := st.succeeded + (if ok then 1 else 0), hint := if leak then Some(MediaOf(meta)) else st.hint))
  }

  /** The body of the loop over the crawled files, for one file. */
  function Step(w: World, cfg: Config, testRun: bool, inputs: seq<string>, st: Run, file: Path, leak: bool): Result<Run> {
    if Blacklisted(w, cfg, file) then Ok(st)
    else
      var meta :- MetaParseSpec(w.guess(w.fs.resolve(file), MediaHint(st.hint)), w.fs.suffix(file), w.h);
      if !cfg.hasVerbose then Err(KeyError)
      else
        var hits := w.search(meta)[..HitCount(|w.search(meta)|, cfg.maxHits)];
        var st := st.(detected := st.detected + 1);
        if hits == [] then Ok(st)
        else
          var sel :- Selection(cfg, inputs, st.pos, |hits|);
          var st := st.(pos := sel.1);
          match sel.0
          case Skip => Ok(st)
          case Abort => Ok(st.(aborted := true))
          case Apply(k) => Relocate(w, cfg, testRun, st, file, Update(meta, hits[k]), leak)
  }

  /** The loop from the file at i on; quitting ends it at once. */
  function RunFrom(w: World, cfg: Config, testRun: bool, inputs: seq<string>, st: Run, files: seq<Path>, i: nat, leak: bool): Result<Run>
    decreases |files| - i
  {
    if i >= |files| then Ok(st)
    else
      var st' :- Step(w, cfg, testRun, inputs, st, files[i], leak);
      if st'.aborted then Ok(st') else RunFrom(w, cfg, testRun, inputs, st', files, i + 1, leak)
  }

  /** What `process_files` ends with: the summary of the counts, or nothing after quitting. */
  datatype Outcome = Finished(detected: nat, succeeded: nat) | Aborted

  function OutcomeOf(r: Result<Run>): Result<Outcome> {
    match r
    case Err(e) => Err(e)
    case Ok(st) => Ok(if st.aborted then Aborted else Finished(st.detected, st.succeeded))
  }

  /** The colour of the closing summary line. */
  datatype Colour = Red | Yellow | Green

  /** No success is red, some is yellow, and success for every detected file is green. */
  function SummaryColour(succeeded: nat, detected: nat): Colour {
    if succeeded == 0 then Red else if succeeded < detected then Yellow else Green
  }

  /**
   * With the counts the loop can produce (some detections, no more successes
   * than detections), green means every detected file was renamed and yellow
   * means some but not all were.
   */
  lemma SummaryColourSpec(succeeded: nat, detected: nat)
    requires 0 < detected && succeeded <= detected
    ensures SummaryColour(succeeded, detected) == Green <==> succeeded == detected
    ensures SummaryColour(succeeded, detected) == Yellow <==> 0 < succeeded < detected
    ensures SummaryColour(succeeded, detected) == Red <==> succeeded == 0
  {
  }

  /** The files `process_files` loops over. */
  function Files(w: World, cfg: Config, targets: seq<Path>): seq<Path>
    requires Acyclic(w.fs)
  {
    Dedup(Found(w.fs, targets, cfg.recurse, cfg.extensionMask))
  }

  /** One pass of the loop body over a file. */
  method ProcessFile(w: World, cfg: Config, testRun: bool, inputs: seq<string>, st: Run, file: Path) returns (r: Result<Run>)
    ensures r == Step(w, cfg, testRun, inputs, st, file, true)
  {
    if Blacklisted(w, cfg, file) {
      return Ok(st);
    }
    var meta :- MetaParse(w.fs.resolve(file), w.fs.suffix(file), st.hint, w.guess, w.h);
    if !cfg.hasVerbose {
      return Err(KeyError);
    }
    var hits := CollectHits(w.search(meta), cfg.maxHits);
    var counted := st.(detected := st.detected + 1);
    if hits == [] {
      return Ok(counted);
    }
    var sel :- Choose(cfg, inputs, counted.pos, |hits|);
    var moved := counted.(pos := sel.1);
    match sel.0
    case Skip =>
      return Ok(moved);
    case Abort =>
      return Ok(moved.(aborted := true));
    case Apply(k) =>
      r := RelocateFile(w, cfg, testRun, moved, file, Update(meta, hits[k]));
  }

  /** The choice: the first hit in batch mode, the prompt's otherwise. */
  method Choose(cfg: Config, inputs: seq<string>, pos: nat, n: nat) returns (r: Result<(Choice, nat)>)
    ensures r == Selection(cfg, inputs, pos, n)
  {
    if cfg.batch {
      return Ok((Apply(0), pos));
    }
    r := Prompt(inputs, pos, n);
  }

  /** `meta.format(template)` under the formatted destination directory, then `sanitize_filename`. */
  method Destination(w: World, cfg: Config, meta: Mapi) returns (r: Result<string>)
    ensures r == DestPath(w, cfg, meta)
  {
    var mediaName := PyStr(Some(MediaOf(meta)), w.h);
    var template := cfg.lookup(mediaName + "_template");
    var destPath := w.format(meta, template);
    var dir := cfg.lookup(mediaName + "_destination");
    if dir.Some? && dir.value != "" {
      destPath := w.format(meta, dir) + "/" + destPath;
    }
    r := Sanitize(destPath, cfg.scene, cfg.replacements, w.nfkd, w.h.cc);
  }

  /** From `media = meta['media']` to the counting of a successful move. */
  method RelocateFile(w: World, cfg: Config, testRun: bool, st: Run, file: Path, meta: Mapi) returns (r: Result<Run>)
    ensures r == Relocate(w, cfg, testRun, st, file, meta, true)
  {
    var dest :- Destination(w, cfg, meta);
    var ok := testRun || w.moved(file, dest);
    r := Ok(st.(succeeded := st.succeeded + (if ok then 1 else 0), hint := Some(MediaOf(meta))));
  }

  /**
   * `process_files(targets, media, test_run, **config)`: the crawl, then the
   * loop over its files with the counters, the prompt position and the
   * `media` variable carried along.
   */
  method ProcessFiles(w: World, cfg: Config, targets: seq<Path>, media: Option<Value>, testRun: bool, inputs: seq<string>)
    returns (r: Result<Outcome>)
    requires Acyclic(w.fs)
    ensures r == OutcomeOf(RunFrom(w, cfg, testRun, inputs, Run(0, 0, media, 0, false), Files(w, cfg, targets), 0, true))
  {
    var files := DirCrawl(w.fs, targets, cfg.recurse, cfg.extensionMask);
    var st := Run(0, 0, media, 0, false);
    ghost var start := st;
    var i := 0;
    while i < |files|
      invariant i <= |files| && !st.aborted
      invariant RunFrom(w, cfg, testRun, inputs, st, files, i, true) == RunFrom(w, cfg, testRun, inputs, start, files, 0, true)
    {
      var next :- ProcessFile(w, cfg, testRun, inputs, st, files[i]);
      if next.aborted {
        return Ok(Aborted);
      }
      st := next;
      i := i + 1;
    }
    return Ok(Finished(st.detected, st.succeeded));
  }

  // ---------------------------------------------------------------------------
  // properties of the loop

  /**
   * One file adds at most one detection, and a success only together with
   * its detection.
   */
  lemma StepCounts(w: World, cfg: Config, testRun: bool, inputs: seq<string>, st: Run, file: Path, leak: bool)
    ensures Step(w, cfg, testRun, inputs, st, file, leak).Ok? ==>
      var s := Step(w, cfg, testRun, inputs, st, file, leak).value;
      && st.detected <= s.detected <= st.detected + 1
      && st.succeeded <= s.succeeded
      && s.succeeded - st.succeeded <= s.detected - st.detected
  {
    if !Blacklisted(w, cfg, file) {
      var m := MetaParseSpec(w.guess(w.fs.resolve(file), MediaHint(st.hint)), w.fs.suffix(file), w.h);
      if m.Ok? && cfg.hasVerbose {
        var hits := w.search(m.value)[..HitCount(|w.search(m.value)|, cfg.maxHits)];
        var counted := st.(detected := st.detected + 1);
        var sel := Selection(cfg, inputs, counted.pos, |hits|);
        if hits != [] && sel.Ok? && sel.value.0.Apply? {
          RelocateCounts(w, cfg, testRun, counted.(pos := sel.value.1), file, Update(m.value, hits[sel.value.0.index]), leak);
        }
      }
    }
  }

  /**
   * Renaming adds at most one success and touches nothing else but the
   * `media` variable, which it sets to the file's media as written and
   * leaves alone once corrected.
   */
  lemma RelocateCounts(w: World, cfg: Config, testRun: bool, st: Run, file: Path, meta: Mapi, leak: bool)
    ensures Relocate(w, cfg, testRun, st, file, meta, leak).Ok? ==>
      var s := Relocate(w, cfg, testRun, st, file, meta, leak).value;
      && st.succeeded <= s.succeeded <= st.succeeded + 1
      && s.detected == st.detected && s.pos == st.pos && s.aborted == st.aborted
      && s.hint == (if leak then Some(MediaOf(meta)) else st.hint)
  {
  }

  /**
   * The counters from the file at i on: no more detections than files, and
   * never more successes than detections.
   */
  lemma {:induction false} RunCounts(w: World, cfg: Config, testRun: bool, inputs: seq<string>, st: Run, files: seq<Path>, i: nat, leak: bool)
    requires i <= |files|
    ensures RunFrom(w, cfg, testRun, inputs, st, files, i, leak).Ok? ==>
      var s := RunFrom(w, cfg, testRun, inputs, st, files, i, leak).value;
      && st.detected <= s.detected <= st.detected + (|files| - i)
      && st.succeeded <= s.succeeded
      && s.succeeded - st.succeeded <= s.detected - st.detected
    decreases |files| - i
  {
    if i < |files| {
      StepCounts(w, cfg, testRun, inputs, st, files[i], leak);
      var r := Step(w, cfg, testRun, inputs, st, files[i], leak);
      if r.Ok? && !r.value.aborted {
        RunCounts(w, cfg, testRun, inputs, r.value, files, i + 1, leak);
      }
    }
  }

  /**
   * The summary `process_files` reports: successes never exceed detections,
   * and detections never exceed the crawled files.
   */
  lemma SummaryBounds(w: World, cfg: Config, targets: seq<Path>, media: Option<Value>, testRun: bool, inputs: seq<string>, leak: bool)
    requires Acyclic(w.fs)
    ensures
      var r := OutcomeOf(RunFrom(w, cfg, testRun, inputs, Run(0, 0, media, 0, false), Files(w, cfg, targets), 0, leak));
      r.Ok? && r.value.Finished? ==> r.value.succeeded <= r.value.detected <= |Files(w, cfg, targets)|
  {
    RunCounts(w, cfg, testRun, inputs, Run(0, 0, media, 0, false), Files(w, cfg, targets), 0, leak);
  }

  /** Quitting ends the loop: files after the one where the user quit play no part. */
  lemma {:induction false} AbortStops(w: World, cfg: Config, testRun: bool, inputs: seq<string>, st: Run, files: seq<Path>, extra: seq<Path>, i: nat, leak: bool)
    requires i <= |files| && !st.aborted
    requires RunFrom(w, cfg, testRun, inputs, st, files, i, leak).Ok?
    requires RunFrom(w, cfg, testRun, inputs, st, files, i, leak).value.aborted
    ensures RunFrom(w, cfg, testRun, inputs, st, files + extra, i, leak) == RunFrom(w, cfg, testRun, inputs, st, files, i, leak)
    decreases |files| - i
  {
    assert (files + extra)[i] == files[i];
    var r := Step(w, cfg, testRun, inputs, st, files[i], leak);
    if !r.value.aborted {
      AbortStops(w, cfg, testRun, inputs, r.value, files, extra, i + 1, leak);
    }
  }

  /** Batch mode reads no input and never quits. */
  lemma BatchStep(w: World, cfg: Config, testRun: bool, inputs: seq<string>, st: Run, file: Path, leak: bool)
    requires cfg.batch
    ensures Step(w, cfg, testRun, inputs, st, file, leak).Ok? ==>
      var s := Step(w, cfg, testRun, inputs, st, file, leak).value;
      s.pos == st.pos && s.aborted == st.aborted
  {
  }

  /** Over a whole batch run the input is never read and the loop is never cut short. */
  lemma {:induction false} BatchRun(w: World, cfg: Config, testRun: bool, inputs: seq<string>, st: Run, files: seq<Path>, i: nat, leak: bool)
    requires cfg.batch && !st.aborted
    ensures RunFrom(w, cfg, testRun, inputs, st, files, i, leak).Ok? ==>
      var s := RunFrom(w, cfg, testRun, inputs, st, files, i, leak).value;
      s.pos == st.pos && !s.aborted
    decreases |files| - i
  {
    if i < |files| {
      BatchStep(w, cfg, testRun, inputs, st, files[i], leak);
      var r := Step(w, cfg, testRun, inputs, st, files[i], leak);
      if r.Ok? {
        BatchRun(w, cfg, testRun, inputs, r.value, files, i + 1, leak);
      }
    }
  }

  /**
   * As written: once a hit is applied to a file and its destination is
   * worked out, the `media` the caller passed is replaced by that file's
   * media, whether the move then succeeds or not, so a run started without
   * one hands a media hint to `meta_parse` for every later file.
   */
  lemma MediaLeak(w: World, cfg: Config, testRun: bool, inputs: seq<string>, st: Run, file: Path, meta: Mapi, k: nat)
    requires st.hint.None? && !Blacklisted(w, cfg, file) && cfg.hasVerbose
    requires MetaParseSpec(w.guess(w.fs.resolve(file), None), w.fs.suffix(file), w.h) == Ok(meta)
    requires k < HitCount(|w.search(meta)|, cfg.maxHits)
    requires Selection(cfg, inputs, st.pos, HitCount(|w.search(meta)|, cfg.maxHits)).Ok?
    requires Selection(cfg, inputs, st.pos, HitCount(|w.search(meta)|, cfg.maxHits)).value.0 == Apply(k)
    requires DestPath(w, cfg, Update(meta, w.search(meta)[k])).Ok?
    ensures Step(w, cfg, testRun, inputs, st, file, true).Ok?
    ensures Step(w, cfg, testRun, inputs, st, file, true).value.hint == Some(MediaOf(Update(meta, w.search(meta)[k])))
  {
    assert MediaHint(st.hint) == None;
    var hits := w.search(meta)[..HitCount(|w.search(meta)|, cfg.maxHits)];
    assert hits[k] == w.search(meta)[k];
  }

  /** Corrected: one file leaves the caller's `media` as it was. */
  lemma StepKeepsHint(w: World, cfg: Config, testRun: bool, inputs: seq<string>, st: Run, file: Path)
    ensures Step(w, cfg, testRun, inputs, st, file, false).Ok? ==>
      Step(w, cfg, testRun, inputs, st, file, false).value.hint == st.hint
  {
  }

  /** Corrected: every file of the run is parsed with the `media` the caller passed. */
  lemma {:induction false} RunKeepsHint(w: World, cfg: Config, testRun: bool, inputs: seq<string>, st: Run, files: seq<Path>, i: nat)
    ensures RunFrom(w, cfg, testRun, inputs, st, files, i, false).Ok? ==>
      RunFrom(w, cfg, testRun, inputs, st, files, i, false).value.hint == st.hint
    decreases |files| - i
  {
    if i < |files| {
      StepKeepsHint(w, cfg, testRun, inputs, st, files[i]);
      var r := Step(w, cfg, testRun, inputs, st, files[i], false);
      if r.Ok? {
        RunKeepsHint(w, cfg, testRun, inputs, r.value, files, i + 1);
      }
    }
  }
}
