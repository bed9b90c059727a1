# mnamer, modelled in Dafny

mnamer renames media files. It crawls the paths it is given for files and
asks guessit what each file name says (a movie title and year, or a series
with season and episode numbers). It lets the user pick one of the hits a
metadata provider returns. It then moves the file to a destination built
from a template and cleaned of characters that do not belong in a file
name.

The project models two parts of the program:

- **The metadata record** of `mnamer/metadata.py`. This covers the dataclass
  with its movie and episode variants and the converting `__setattr__`
  hooks. It also covers `update`, the `extension` and `is_subtitle`
  properties, `as_dict`, and the way `_parse_path_data` filters guessit's
  answer. Construction runs `__init__` and then `__post_init__`. The model
  also has `parse_metadata` and the template formatter: the token pattern,
  `_format_repl` and `_MetaFormatter`.
- **The driver** in `mnamer/__main__.py`. This covers `dir_crawl` and
  `dir_iter` over a file-system graph. It covers the part of `meta_parse`
  that follows the guessit call, plus `merge_dicts` and
  `sanitize_filename`. From `process_files` it takes the hit collection,
  the prompt, batch mode, the destination, the move and the two counters.

Pure code is written as datatypes, functions and lemmas. The `Metadata`
class is a Dafny `class` whose methods update `attrs`, the instance's
fields, in place. Loops in the source are methods with loop invariants.
Each such method is proved equal to a specification function: the
`attrs` loops of `__init__` and `update`, the target loop of `dir_crawl`,
the `seen` comprehension, the replacement loop of `sanitize_filename`, the
quality loop of `meta_parse`, and the hits, prompt and file loops of
`process_files`. The properties are then proved about those functions.

Python exceptions become `Err` values of a `Result`. `None` becomes
`Option`. Python's dynamic values are a `Value` datatype. The character
classes `\s`, `\w` and `\d` of Python's `re` are a parameter. Their ASCII
part is fixed.

Everything the code calls but does not define is a parameter:

- guessit;
- the file system;
- the provider search;
- `mapi`'s `Metadata.format`;
- the `mnamer.utils` helpers;
- Unicode normalisation;
- the regular-expression matcher of the blacklist;
- whether the move succeeds;
- the lines typed at the prompt.

## Model

| member | source | states |
|---|---|---|
| Meta.FieldsOf | mnamer/metadata.py:40-46 | every field listed for a class is one the class declares |
| Meta.FieldOrder | mnamer/metadata.py:140-150 | the base fields come first and the variant's own fields follow |
| Meta.ToMediaType | mnamer/metadata.py:80 | `MediaType(v)` fails only with ValueError |
| Meta.Assign | mnamer/metadata.py:76-86 | None is stored as it is; any other value is stored as the converter table gives it, and the converter's error is raised when it fails; a successful assignment sets that one field and leaves every other field as it was |
| Meta.Convert | mnamer/metadata.py:76-86 | the converter tables of the three `__setattr__` hooks (the variants' are at lines 166-173 and 215-225); what they store and raise is stated by StringConverters, MediaConverter and NumberConverters |
| Meta.StringConverters | mnamer/metadata.py:77-85 | group is upper-cased and ends with no lower-case letter; quality is lower-cased and ends with no upper-case letter; synopsis is capitalised; name, series and title pass through `str_replace_slashes` and then `str_title_case`; any non-str value given to a str converter raises TypeError |
| Meta.MediaConverter | mnamer/metadata.py:80 | `media` only ever holds a MediaType member; a str is accepted exactly when it is "movie" or "episode"; the only failure is ValueError |
| Meta.NumberConverters | mnamer/metadata.py:215-225 | season and episode only ever hold ints; an int is kept; a digit string is read in base 10; a string without digits raises ValueError; any other type raises TypeError |
| Meta.ExtensionRule | mnamer/metadata.py:94-103 | a container is a subtitle exactly when it is a str ending in ".srt"; a subtitle with a language gets "." + alpha2 + container; anything else gets the container; a str extension always ends with the container |
| Meta.IsSubtitle | mnamer/metadata.py:101-103 | `is_subtitle` raises AttributeError exactly when the container is truthy but not a str, and raises nothing else |
| Meta.Extension | mnamer/metadata.py:94-99 | `extension` raises only AttributeError, and raises whenever `is_subtitle` does |
| Meta.AsDict | mnamer/metadata.py:105-108 | `as_dict` has exactly the class's attribute names plus "extension", holds the extension under "extension", and fails exactly when `extension` fails |
| Meta.FilterPathData | mnamer/metadata.py:115-121 | filtering guessit's answer can fail only with IndexError |
| Meta.FilterPathDataSpec | mnamer/metadata.py:115-121 | a key is kept exactly when guessit gave a scalar or a list of ints and strs for it; a scalar is kept as is and a list by its first element; other values are dropped |
| Meta.FilterPathDataFails | mnamer/metadata.py:118-121 | an empty list among guessit's values makes `_parse_path_data` raise IndexError |
| Meta.FailStays | mnamer/metadata.py:115-121 | once an entry fails, the whole filter fails, whatever follows |
| Meta.Metadata.constructor | mnamer/metadata.py:36-46 | a fresh instance of the given class, with no field assigned and no path data |
| Meta.Metadata.SetAttr | mnamer/metadata.py:76-86 | `self.f = v` stores exactly what the converter table gives, or raises its error and leaves the object unchanged |
| Meta.Metadata.Update | mnamer/metadata.py:130-136 | every field of self that the other object holds as non-None is overwritten; AttributeError is raised exactly when self is a movie or an episode and the other object is of another class, and then only the base fields have been copied |
| Meta.Metadata.ParsePathData | mnamer/metadata.py:110-121 | the loop stores the filtered path data, or raises IndexError exactly when the filter fails |
| Meta.Metadata.SetCommon | mnamer/metadata.py:62-74 | media from guessit's type, the joined quality (None when empty), language, group and container, in the source's order, with the first error raised |
| Meta.Metadata.SetVariant | mnamer/metadata.py:192-202 | a movie's name and year, or an episode's date, episode, season and series, with a truthy alternative title appended to the series |
| Meta.Metadata.PostInit | mnamer/metadata.py:48-74 | `__post_init__` gives exactly the record of the specification, or its error |
| Meta.Metadata.AssignArgs | mnamer/metadata.py:36-46 | the dataclass `__init__` assigns every field in declaration order, from the arguments or the default, and stops at the first failing converter |
| Meta.Metadata.Init | mnamer/metadata.py:48-50 | construction gives exactly the record of the specification, `__init__`'s assignments followed by `__post_init__`, or its first error |
| Meta.InitStaysFailed | mnamer/metadata.py:36-46 | a failing assignment in `__init__` is the failure of the whole construction |
| Meta.ParseMetadata | mnamer/metadata.py:228-239 | `parse_metadata` returns a fresh object equal to the specification's record, or raises its error |
| Meta.OverlaySpec | mnamer/metadata.py:130-136 | after `update` a field holds the other object's value when that value is not None, and its own value otherwise |
| Meta.OverlayIdempotent | mnamer/metadata.py:130-136 | updating twice from the same object gives the same fields as updating once |
| Meta.AssignDeclared | mnamer/metadata.py:76-86 | assigning a declared field keeps the record within its class's fields |
| Meta.AssignFieldsDeclared | mnamer/metadata.py:36-46 | `__init__` only sets fields the class declares |
| Meta.InitDeclared | mnamer/metadata.py:36-74 | a constructed object only holds fields its class declares |
| Meta.CommonDeclared | mnamer/metadata.py:62-74 | the common assignments keep the record within its class and leave a MediaType member in `media` |
| Meta.VariantDeclared | mnamer/metadata.py:152-157 | the variant assignments keep the record within its class and do not touch `media` |
| Meta.ParseOutcome | mnamer/metadata.py:228-239 | `parse_metadata` never returns a base object, and what it returns holds a MediaType member in `media` and only its class's fields |
| Meta.DerivedClass | mnamer/metadata.py:235-238 | the class lookup succeeds exactly for a MediaType member; EPISODE gives MetadataEpisode, MOVIE gives MetadataMovie, never the base class; anything else raises KeyError |
| Meta.ParseClass | mnamer/metadata.py:234-239 | `parse_metadata` returns a MetadataEpisode when the base object's media is EPISODE and a MetadataMovie when it is MOVIE |
| Formatting.MatchAt | mnamer/metadata.py:161 | a match of the token pattern is a well-formed token whose text starts the string |
| Formatting.MatchComplete | mnamer/metadata.py:210 | every well-formed token at the start of a string is the match found there, so the matcher is exact |
| Formatting.Format | mnamer/metadata.py:88-89 | formatting a base object raises NotImplementedError |
| Formatting.SubstituteLiteral | mnamer/metadata.py:162 | text without an opening brace is copied through `re.sub` unchanged |
| Formatting.SubstituteUnmatched | mnamer/metadata.py:162 | a character at which the pattern does not match, such as a `{` that opens no token, is copied, and substitution goes on after it |
| Formatting.Substitute | mnamer/metadata.py:162 | `re.sub` with `_format_repl`; stated by SubstituteLiteral, SubstituteUnmatched, SubstituteToken and SubstitutePieces |
| Formatting.SubstituteToken | mnamer/metadata.py:162 | a well-formed token is replaced by `_format_repl`'s result, and substitution goes on after it; an error stops it |
| Formatting.SubstitutePieces | mnamer/metadata.py:211 | a template made of brace-free text and well-formed tokens renders piece by piece |
| Formatting.ReplField | mnamer/metadata.py:123-128 | a token naming a field renders that field's value, or "" for a falsy one, title-cased for name, series, synopsis and title; a failing `extension` is raised first |
| Formatting.FieldLookup | mnamer/metadata.py:29-33 | `get_value` finds every attribute name in `as_dict`, and none of them is a key of digits |
| Formatting.ReplOther | mnamer/metadata.py:26-33 | an extension error comes first; then a key of digits raises TypeError, or ValueError when it is a field number above PY_SSIZE_T_MAX, "extension" renders the extension, and a key that is not an attribute of the object's class renders "" (title-cased for the name-like keys) |
| Formatting.ReplForeign | mnamer/metadata.py:123-128 | a token naming a field of another class (`{series}` in a movie template) renders as the title-casing of "" for the name-like keys and as "" otherwise |
| Formatting.Lookup | mnamer/metadata.py:29-33 | `get_field` and `get_value`: a key of digits raises TypeError, because the positional arguments are None, unless it is a field number above PY_SSIZE_T_MAX, which the format-string parser rejects with ValueError first; any other key gives its value, or the falsy "" when it is missing |
| Formatting.LookupFieldNumber | mnamer/metadata.py:29-31 | the field number PY_SSIZE_T_MAX still reaches `args[key]` and raises TypeError; one more raises ValueError |
| Formatting.Repl | mnamer/metadata.py:123-128 | `_format_repl` for one match; what it renders and raises is stated by ReplField, ReplOther and ReplForeign |
| Formatting.Rendered | mnamer/metadata.py:26-27 | `format_field`: a falsy value renders as "", any other through `format`; stated for the fields by ReplField |
| Formatting.FormatValue | mnamer/metadata.py:27 | `format(value, spec)` for the specs the pattern admits; the two-digit zero padding is stated by ZeroPadTwo |
| Formatting.ZeroPadTwo | mnamer/metadata.py:209 | `{season:02}` writes a number below ten with one leading zero and a larger one in full |
| Formatting.MovieTemplate | mnamer/metadata.py:160-161 | the movie default template is the pieces name, " (", year, ")" and nothing the pattern would misread |
| Formatting.DefaultMovie | mnamer/metadata.py:159-164 | with no template, a movie renders as the title-cased name, then " (", the year and ")", after the padding clean-up |
| Formatting.MovieRender | mnamer/metadata.py:160-162 | the movie default's pieces render to the name and year, or to the extension's error |
| Formatting.EpisodeTemplate | mnamer/metadata.py:209-210 | the episode default template is the pieces series, " - ", season:02, "x", episode:02, " - ", title and nothing else |
| Formatting.DefaultEpisode | mnamer/metadata.py:208-213 | with no template, an episode renders as the title-cased series, " - ", the season and episode padded to two digits around "x", " - " and the title-cased title, after the padding clean-up |
| Formatting.EpisodeRender | mnamer/metadata.py:209-211 | the episode default's pieces render to those four fields, or to the extension's error |
| Formatting.FormatLiteral | mnamer/metadata.py:159-164 | a template without tokens is returned as given, apart from the padding clean-up |
| Crawl.NonRecursive | mnamer/__main__.py:194-201 | without recursion a directory yields exactly its file children, each twice, in `iterdir` order |
| Crawl.NonRecursiveChildren | mnamer/__main__.py:197-201 | the same, for any run of a directory's children |
| Crawl.Reaches | mnamer/__main__.py:188-205 | the recursive crawl yields exactly the target file itself and the ends of the walks from the target; a walk enters a symbolic link only at depth 0 |
| Crawl.WalkOf | mnamer/__main__.py:188-205 | every path the crawl yields, other than a file target, ends a walk |
| Crawl.WalkOfChildren | mnamer/__main__.py:197-205 | every path the loop over a directory's children yields ends a walk from that directory |
| Crawl.StepWalk | mnamer/__main__.py:202-205 | a walk from a child one level deeper extends to a walk from its directory, unless it enters a symbolic link below the top |
| Crawl.WalkYields | mnamer/__main__.py:188-205 | the end of every walk is yielded |
| Crawl.InChild | mnamer/__main__.py:197-205 | what one child yields is part of what its directory yields |
| Crawl.OnlyFiles | mnamer/__main__.py:188-205 | `dir_iter` yields only files |
| Crawl.OnlyFilesChildren | mnamer/__main__.py:197-205 | the loop over the children yields only files |
| Crawl.DirIter | mnamer/__main__.py:188-205 | `dir_iter`; what it yields is stated by NonRecursive, Reaches, WalkOf, WalkYields and OnlyFiles |
| Crawl.Children | mnamer/__main__.py:197-205 | the loop over `iterdir()`; stated by NonRecursiveChildren, WalkOfChildren, InChild and OnlyFilesChildren |
| Crawl.StripDots | mnamer/__main__.py:180 | `strip('.')` leaves neither a leading nor a trailing dot |
| Crawl.StripDotsSlice | mnamer/__main__.py:180 | `strip('.')` returns a slice of the suffix, and every character removed on either side is a dot |
| Crawl.DirCrawl | mnamer/__main__.py:164-185 | the crawl returns the resolved files that pass the mask, found under the existing targets, each kept at its first appearance |
| Crawl.CollectFiles | mnamer/__main__.py:174-182 | the target loop collects exactly the masked, resolved files of each existing target, target by target |
| Crawl.Unique | mnamer/__main__.py:183-185 | the `seen`-set comprehension keeps each path at its first appearance |
| Crawl.DedupSpec | mnamer/__main__.py:183-185 | deduplication keeps every input path, exactly once, in the order of first appearance |
| Crawl.KeptSpec | mnamer/__main__.py:179-182 | the inner loop keeps exactly the resolved forms of the yielded files the mask lets through |
| Crawl.FoundSpec | mnamer/__main__.py:174-182 | a path is collected exactly when it is the resolved form of a file under an existing target that the mask lets through |
| Crawl.MaskedSpec | mnamer/__main__.py:180-181 | a file passes the mask exactly when there is no mask, the mask is empty, or its suffix without dots is in the mask |
| Sanitizing.Collapse | mnamer/__main__.py:319 | when the replacement is not whitespace, no whitespace is left |
| Sanitizing.Filter | mnamer/__main__.py:320 | only characters of the kept class remain, and the name does not grow |
| Sanitizing.FilterAppend | mnamer/__main__.py:320-324 | the filter works character by character: it distributes over concatenation, and a single character is kept exactly when it is in the class |
| Sanitizing.CollapseRun | mnamer/__main__.py:319-323 | a maximal run of whitespace becomes exactly one replacement character |
| Sanitizing.CollapseAppend | mnamer/__main__.py:319-323 | the substitution of a name that ends in a non-whitespace character does not reach into what follows, so non-whitespace characters are kept in place |
| Sanitizing.Sanitize | mnamer/__main__.py:306-325 | a missing replacement mapping raises TypeError; otherwise the result is the replacements in order, then the mode's clean-up, then `strip` |
| Sanitizing.NormalChars | mnamer/__main__.py:323-325 | in normal mode only spaces, word and digit characters and `?!.,_()[]-/` remain, with no surrounding whitespace |
| Sanitizing.SceneChars | mnamer/__main__.py:316-325 | in scene mode no whitespace is left, only dots, slashes and word characters remain, and no ASCII letter is upper case |
| Sanitizing.ReplaceAllSelf | mnamer/__main__.py:314-315 | replacements that map each string to itself leave the name unchanged |
| Sanitizing.ReplaceAllAbsent | mnamer/__main__.py:314-315 | a replacement whose text does not occur changes nothing |
| Sanitizing.CollapseNoSpace | mnamer/__main__.py:323 | a name without whitespace passes the whitespace substitution unchanged |
| Sanitizing.FilterKeepsAll | mnamer/__main__.py:324 | a name made only of allowed characters passes the filter unchanged |
| Sanitizing.NormalNotIdempotent | mnamer/__main__.py:322-325 | normal mode can change its own output: "a # b" becomes "a  b", which becomes "a b" |
| Parsing.MediaHintSpec | mnamer/__main__.py:241-245 | the guessit type is "episode" for "television" and "tv", "movie" for "movie", and absent for anything else |
| Parsing.MediaHint | mnamer/__main__.py:241-245 | the type handed to guessit is "episode", "movie" or none, and none without a media override |
| Parsing.Lowest | mnamer/__main__.py:268 | `sorted(...)[0]` is one of the items; an empty list raises IndexError, and two or more items that are neither all ints nor all strs raise TypeError |
| Parsing.Typed | mnamer/__main__.py:248-272 | a movie object exactly when guessit's type is "movie"; a type that is neither "movie" nor "episode" raises ValueError |
| Parsing.QualityOf | mnamer/__main__.py:283-287 | quality stays unset exactly when no quality key was found, and the only failure is TypeError |
| Parsing.QualityListExtends | mnamer/__main__.py:284-287 | a list as the first quality value is extended in place by `+=`: a later str adds one element for the space and one for each of its characters |
| Parsing.MinInt | mnamer/__main__.py:268 | `sorted(...)[0]` of ints is a member no larger than any other |
| Parsing.MinStr | mnamer/__main__.py:268 | `sorted(...)[0]` of strs is a member that no other precedes |
| Parsing.MetaParse | mnamer/__main__.py:234-292 | `meta_parse` returns exactly the specification's object for guessit's answer with the translated media, or raises its error |
| Parsing.QualityPrefix | mnamer/__main__.py:283-287 | a TypeError part-way through the quality loop is the loop's result |
| Parsing.QualityError | mnamer/__main__.py:283-287 | the quality loop raises nothing but TypeError |
| Parsing.QualityJoined | mnamer/__main__.py:283-287 | quality values that are all strs are joined by single spaces, in guessit's order |
| Parsing.ParseValueError | mnamer/__main__.py:249-272 | `meta_parse` raises ValueError exactly when guessit's type is neither "movie" nor "episode" |
| Parsing.FinishKeeps | mnamer/__main__.py:283-291 | the common items leave every other item alone |
| Parsing.ParseKeeps | mnamer/__main__.py:248-291 | apart from quality, group and extension, the result holds what the type branch set |
| Parsing.ParseMovie | mnamer/__main__.py:249-255 | a movie gets a movie object with media "movie", guessit's title when present, and "YYYY-01-01" from guessit's year when present |
| Parsing.MovieKeys | mnamer/__main__.py:249-255 | the movie branch sets media, title and date exactly as above |
| Parsing.ParseLowestEpisode | mnamer/__main__.py:266-268 | a non-empty list of ints as episode gives the text of its smallest element |
| Parsing.ParseEpisode | mnamer/__main__.py:258-265 | an episode gets a television object whose series is guessit's title and whose season is the text of guessit's season, each when present |
| Parsing.EpisodeKeys | mnamer/__main__.py:258-265 | the episode branch sets series and season exactly as above |
| Parsing.ParseCommon | mnamer/__main__.py:274-291 | extension is set exactly when the path has a suffix, group when guessit found a release group, and quality exactly when a quality key was found |
| Parsing.TypedOmitsCommon | mnamer/__main__.py:248-272 | neither type branch sets quality, group or extension |
| Parsing.FinishCommon | mnamer/__main__.py:283-291 | the last steps set quality, group and extension as found |
| Processing.MergeDicts | mnamer/__main__.py:295-303 | the merge has the keys of both dictionaries; d2's values win and d1's fill the rest |
| Processing.MergeAssociative | mnamer/__main__.py:295-303 | merging is associative |
| Processing.MergeIdempotent | mnamer/__main__.py:295-303 | merging the same overlay twice is merging it once |
| Processing.Update | mnamer/__main__.py:408-410 | `meta.update(hit)` keeps the class, has the keys of both, takes the hit's values and keeps the metadata's other values |
| Processing.HitCount | mnamer/__main__.py:364-374 | at most `max_hits - 1` hits are collected, none when `max_hits` is at most 1, and fewer only when the results run out |
| Processing.CollectHits | mnamer/__main__.py:364-374 | the hits loop collects exactly the first HitCount results, in order |
| Processing.ClassifySpec | mnamer/__main__.py:391-415 | the prompt accepts exactly the empty line (first hit), the skip words, the quit words and the numbers 1 to n (that hit) |
| Processing.Classify | mnamer/__main__.py:391-415 | a chosen index is below the number of hits, except that the empty line always picks the first hit |
| Processing.PromptSpec | mnamer/__main__.py:389-415 | an accepted choice consumes at least one line and applies a hit within range |
| Processing.Prompt | mnamer/__main__.py:389-415 | the prompt loop settles as its specification says, or raises EOFError when the input ends |
| Processing.PromptFirst | mnamer/__main__.py:389-415 | the prompt settles on the first acceptable line; every earlier line was rejected; EOFError happens exactly when no line is acceptable |
| Processing.Selection | mnamer/__main__.py:381-415 | a chosen hit is within the collected hits |
| Processing.ProcessFile | mnamer/__main__.py:345-453 | one pass of the loop body equals the specification step, with the `media` variable overwritten as the source does |
| Processing.Choose | mnamer/__main__.py:381-415 | batch mode picks the first hit without reading input; otherwise the prompt decides |
| Processing.Destination | mnamer/__main__.py:427-440 | the destination is the formatted template under the formatted destination directory when one is set, then sanitized |
| Processing.DestPath | mnamer/__main__.py:429-440 | the destination raises TypeError exactly when no replacement mapping is configured |
| Processing.Relocate | mnamer/__main__.py:427-453 | renaming fails exactly when the destination does, and adds a success exactly when the move succeeds or the run is a test run |
| Processing.Step | mnamer/__main__.py:345-453 | the loop body for one file; stated by StepCounts, BatchStep, StepKeepsHint and MediaLeak |
| Processing.RunFrom | mnamer/__main__.py:338-453 | the loop over the crawled files; stated by RunCounts, AbortStops, BatchRun and RunKeepsHint |
| Processing.RelocateFile | mnamer/__main__.py:427-453 | a move that succeeds, or any move in a test run, adds one success; `media` is overwritten |
| Processing.ProcessFiles | mnamer/__main__.py:328-453 | `process_files` ends with the counts of the loop over the crawled files, or with nothing once the user quits |
| Processing.StepCounts | mnamer/__main__.py:345-453 | one file adds at most one detection, and a success only with its detection |
| Processing.RelocateCounts | mnamer/__main__.py:427-453 | renaming adds at most one success and changes only the success count and `media` |
| Processing.RunCounts | mnamer/__main__.py:338-453 | over the files left, detections grow by at most one per file, and successes never outgrow detections |
| Processing.SummaryBounds | mnamer/__main__.py:455-470 | in the summary, successes never exceed detections and detections never exceed the crawled files |
| Processing.SummaryColourSpec | mnamer/__main__.py:460-465 | green means every detected file was renamed, yellow some but not all, red none |
| Processing.AbortStops | mnamer/__main__.py:417-423 | after the user quits, later files play no part |
| Processing.BatchStep | mnamer/__main__.py:381-383 | in batch mode a file reads no input and never quits |
| Processing.BatchRun | mnamer/__main__.py:381-383 | a whole batch run reads no input and is never cut short |
| Processing.MediaLeak | mnamer/__main__.py:429 | as written, in a run without a media override, once a hit is applied to a file and its destination is worked out, `media` holds that file's media, whether the move then succeeds or not, and the next file is parsed with it as a hint |
| Processing.StepKeepsHint | mnamer/__main__.py:355 | corrected, one file leaves the caller's media override as it was |
| Processing.RunKeepsHint | mnamer/__main__.py:340-355 | corrected, every file of the run is parsed with the caller's media override |

## Left out

- `get_parameters`, `config_load`, `config_save` and `main` are left out. They are argument parsing, JSON I/O and the entry point.
- `notify`, `cprint` and the verbose printing of fields and hits are left out, because they are output only. The `config['verbose']` lookup is kept, since it raises KeyError when the key is missing.
- `provider_search` and the `mapi` providers are a parameter that returns the sequence of hits. A provider raising MapiNotFoundException ends the hits like an exhausted search.
- guessit is a parameter. The model does not decide what it finds in a name.
- `mapi`'s Metadata objects are maps from item names to values, stored verbatim. `mapi`'s validation of items, its `format` and its `media` default are not modelled; a television object without `media` reports "television".
- `mnamer.utils` helpers are parameters of the `Helpers` datatype: `normalize_container`, `str_replace_slashes`, `str_title_case`, `str_fix_padding`, `year_parse` and `parse_date`. The same holds for `str` of objects other than str and int.
- Formatting.FormatValue: `format(value, spec)` is the parameter `formatOther` for a value other than an int or a str, for a str with the '0' flag, and for a spec of non-ASCII digits. `formatOther` always returns a string, so the TypeError that `format` raises for an object without its own `__format__` given a non-empty spec (a list, and probably a babelfish Language) is not modelled.
- Formatting.Lookup: PY_SSIZE_T_MAX is taken as 2^63 - 1, its value on 64-bit platforms. A key of non-ASCII decimal digits is not given a value, so it always raises TypeError, even where Python would find it too large.
- `str.lower`, `str.upper` and `str.capitalize` change only ASCII letters here. Python also changes other letters.
- `\s`, `\w` and `\d` are a parameter. Only their ASCII part is fixed. Python's `str.isdigit` on non-ASCII digits is not modelled.
- Unicode NFKD normalisation is a parameter. The `encode('ascii', 'ignore')` call has no effect in the source, since its result is discarded, so the model leaves it out.
- The blacklist's `re.match` is a parameter.
- Creating the destination directory and moving the file form one parameter that answers whether an IOError occurred.
- `dir_crawl` given a single target instead of a list is not modelled; the targets are always a sequence.
- `Path(f).absolute()` is the identity on resolved paths and is left out.
- Crawl: the file system is a finite graph in which every non-link entry has a height, so cycles can only pass through symbolic links. `dir_iter` on a file-system cycle that never passes a symbolic link is therefore not modelled.
- Parsing.MinStr: Python orders strs by code point, and so does the model, whose `char` is a Unicode scalar value. A Python str can also hold lone surrogates (U+D800 to U+DFFF), for example a file name decoded with `surrogateescape`. A `char` cannot hold them, so the model has no such strings.
- Parsing: `sorted` of a list mixing other object types is modelled as a TypeError for two or more elements. Python would sometimes succeed, for example with dates only.
- Meta.NumberConverters: Python's `int()` also accepts non-ASCII decimal digits and underscores between digits (`int("1_0")` is 10); the model reads ASCII digits only and raises ValueError for the rest.
- Meta.StringConverters: name, series and title given a value other than a str raise TypeError, and so does container. The `mnamer.utils` helpers `str_replace_slashes`, `str_title_case` and `normalize_container` are not part of this model, so this failure is a modelling choice.
- Crawl.Kids: `iterdir()` can raise PermissionError or another OSError on an unreadable directory; the model lists a directory's children as a total function and does not model those errors.
- Values.Get: guessit's answer is a sequence of key-value pairs, and `Get` reads the first pair with a key, while `dict(...)` keeps the last. An answer that repeats a key (guessit's own answer is a dictionary, so it cannot) is read differently.
- Processing.ProcessFiles: only the ordering of the crawl, the counters and the prompt position are modelled. Printing the hits is not.

## Findings

| source | as written | input that shows it | evidently intended | confidence | as-written member | corrected member |
|---|---|---|---|---|---|---|
| mnamer/__main__.py:429 | once a hit is applied and before the move, the loop stores the file's media in `media`, the variable that holds the caller's override and is passed to `meta_parse` for every later file | a run without a media override over a movie file whose hit is applied, followed by a television episode: the episode is parsed with guessit type "movie" | every file is parsed with the caller's override; the media of the renamed file lives in a separate variable | medium, not executed | Processing.MediaLeak | Processing.RunKeepsHint |

`Processing.Step` and `Processing.RunFrom` take a flag. With the flag set
they behave as written, and `ProcessFiles` models the code that way. With
the flag clear they behave as corrected. The counting, quitting and
batch-mode lemmas (`RunCounts`, `SummaryBounds`, `AbortStops`, `BatchRun`)
are proved for both forms.
