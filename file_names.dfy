/**
 * Record identity: a data file's path is reduced to its base name without extension, and
 * that name is cut at fixed positions into a model code (4 characters), an experiment letter
 * and a scenario code (the rest, normally 3 digits), e.g. "oga1a005.txt" -> ("oga1", 'a', "005").
 * Path handling follows Python's posixpath.splitext and posixpath.basename.
 */
module FileNames {
  import opened Wrappers

  /** The parsed identity of a data file: `(M, E, L)` in the original program. */
  datatype RecordId = RecordId(model: string, experiment: char, scenario: string)

  /** `s.rfind(c)`: the last position of `c` in `s`, or -1. */
  function RFind(s: string, c: char): (r: int)
    ensures -1 <= r < |s|
    ensures r >= 0 ==> s[r] == c
    ensures forall k :: r < k < |s| ==> s[k] != c
  {
    if |s| == 0 then -1
    else if s[|s| - 1] == c then |s| - 1
    else RFind(s[..|s| - 1], c)
  }

  /** Every character of `s` is a dot. */
  predicate AllDots(s: string)
  {
    forall k :: 0 <= k < |s| ==> s[k] == '.'
  }

  /**
   * `os.path.splitext(p)[0]`: the path without its extension. The extension starts at the
   * last dot of the last path component, unless everything before that dot in the
   * component is dots too (".profile" has no extension).
   */
  function StripExtension(p: string): string
  {
    var sep := RFind(p, '/');
    var dot := RFind(p, '.');
    if dot > sep && !AllDots(p[sep + 1 .. dot]) then p[..dot] else p
  }

  /** `os.path.basename(p)`: everything after the last '/'. */
  function Basename(p: string): string
  {
    p[RFind(p, '/') + 1 ..]
  }

  /** Python 2 `str.lower` on byte strings: ASCII capitals become small letters, nothing else changes. */
  function LowerChar(c: char): char
  {
    if 'A' <= c <= 'Z' then (c as int + 32) as char else c
  }

  function Lower(s: string): (r: string)
    ensures |r| == |s| && forall k :: 0 <= k < |s| ==> r[k] == LowerChar(s[k])
  {
    seq(|s|, k requires 0 <= k < |s| => LowerChar(s[k]))
  }

  /** No ASCII capital letter in `s`. */
  predicate NoUpper(s: string)
  {
    forall k :: 0 <= k < |s| ==> !('A' <= s[k] <= 'Z')
  }

  /** Lower-casing leaves no capital letter, so lower-casing again changes nothing. */
  lemma LowerIsLowerCase(s: string)
    ensures NoUpper(Lower(s)) && Lower(Lower(s)) == Lower(s)
  {
  }

  /** A string with no capital letter is its own lower-case form. */
  lemma LowerOfLowerCase(s: string)
    requires NoUpper(s)
    ensures Lower(s) == s
  {
  }

  /** The code name the later script parses: the base name without extension, lower-cased. */
  function CodeName(p: string): string
  {
    Lower(Basename(StripExtension(p)))
  }

  /** The code name the earlier draft parses: the same, without lower-casing. */
  function RawCodeName(p: string): string
  {
    Basename(StripExtension(p))
  }

  /**
   * Cutting a name into `(name[0:4], name[4], name[5:])`. In Python the two slices never
   * fail, but `name[4]` raises IndexError on a name of fewer than five characters: None.
   */
  function Split(name: string): (r: Option<RecordId>)
    ensures r.Some? <==> |name| >= 5
    ensures r.Some? ==> |r.value.model| == 4
    ensures r.Some? ==> r.value.model + [r.value.experiment] + r.value.scenario == name
  {
    if |name| < 5 then None
    else
      var r := RecordId(name[0..4], name[4], name[5..]);
      assert r.model + [r.experiment] + r.scenario == name;
      Some(r)
  }

  /** `ismip_datum.parse_file` of the later script (recreate.py). */
  function ParseFile(p: string): Option<RecordId>
  {
    Split(CodeName(p))
  }

  /** `ismip_datum.parse_file` of the earlier draft (gather_ismip_data.py): no lower-casing. */
  function ParseFileRaw(p: string): Option<RecordId>
  {
    Split(RawCodeName(p))
  }

  function LowerId(id: RecordId): RecordId
  {
    RecordId(Lower(id.model), LowerChar(id.experiment), Lower(id.scenario))
  }

  /** The later parser is the earlier one followed by lower-casing every part. */
  lemma ParseFileLowersRaw(p: string)
    ensures ParseFile(p).Some? <==> ParseFileRaw(p).Some?
    ensures ParseFile(p).Some? ==> ParseFile(p).value == LowerId(ParseFileRaw(p).value)
  {
    var raw := RawCodeName(p);
    if |raw| >= 5 {
      assert Lower(raw)[0..4] == Lower(raw[0..4]);
      assert Lower(raw)[5..] == Lower(raw[5..]);
    }
  }

  /** A character that can appear in a file name component without ending it or starting an extension. */
  predicate PlainChar(c: char)
  {
    c != '/' && c != '.'
  }

  predicate Plain(s: string)
  {
    forall k :: 0 <= k < |s| ==> PlainChar(s[k])
  }

  lemma {:induction false} RFindAppend(s: string, t: string, c: char)
    requires forall k :: 0 <= k < |t| ==> t[k] != c
    ensures RFind(s + t, c) == RFind(s, c)
    decreases |t|
  {
    if |t| > 0 {
      assert (s + t)[..|s + t| - 1] == s + t[..|t| - 1];
      RFindAppend(s, t[..|t| - 1], c);
    } else {
      assert s + t == s;
    }
  }

  lemma PlainConcat(model: string, e: char, scenario: string)
    requires Plain(model) && PlainChar(e) && Plain(scenario)
    ensures Plain(model + [e] + scenario)
  {
    var name := model + [e] + scenario;
    forall k | 0 <= k < |name| ensures PlainChar(name[k]) {
      if k < |model| { assert name[k] == model[k]; }
      else if k == |model| { assert name[k] == e; }
      else { assert name[k] == scenario[k - |model| - 1]; }
    }
  }

  /** The last '/' of `dir + name` is the last character of `dir` (or there is none). */
  lemma SeparatorOfDir(dir: string, name: string)
    requires dir == [] || dir[|dir| - 1] == '/'
    requires Plain(name)
    ensures RFind(dir + name, '/') == |dir| - 1
  {
    RFindAppend(dir, name, '/');
  }

  lemma BasenameOfDir(dir: string, name: string)
    requires dir == [] || dir[|dir| - 1] == '/'
    requires Plain(name)
    ensures Basename(dir + name) == name
  {
    SeparatorOfDir(dir, name);
    assert (dir + name)[|dir|..] == name;
  }

  /** Without an extension nothing is stripped. */
  lemma StripNoExtension(dir: string, name: string)
    requires dir == [] || dir[|dir| - 1] == '/'
    requires Plain(name)
    ensures StripExtension(dir + name) == dir + name
  {
    SeparatorOfDir(dir, name);
    RFindAppend(dir, name, '.');
  }

  /** A single extension after a non-empty plain name is stripped. */
  lemma StripOneExtension(dir: string, name: string, ext: string)
    requires dir == [] || dir[|dir| - 1] == '/'
    requires |name| > 0 && Plain(name)
    requires |ext| > 0 && ext[0] == '.' && Plain(ext[1..])
    ensures StripExtension(dir + name + ext) == dir + name
  {
    var stem := dir + name + [ext[0]];
    var p := dir + name + ext;
    assert p == stem + ext[1..];
    SeparatorOfDir(dir, name);
    assert stem[..|stem| - 1] == dir + name;
    RFindAppend(stem, ext[1..], '/');
    RFindAppend(stem, ext[1..], '.');
    assert RFind(p, '.') == |dir| + |name|;
    assert RFind(p, '/') == |dir| - 1;
    assert p[|dir| .. |dir| + |name|] == name;
    assert !AllDots(name) by { assert name[0] != '.'; }
    assert p[..|dir| + |name|] == dir + name;
  }

  /** A conventional path's base name without extension is the name itself. */
  lemma RawCodeNameOfConvention(dir: string, name: string, ext: string)
    requires dir == [] || dir[|dir| - 1] == '/'
    requires |name| > 0 && Plain(name)
    requires ext == [] || (ext[0] == '.' && Plain(ext[1..]))
    ensures RawCodeName(dir + name + ext) == name
  {
    if ext == [] {
      assert dir + name + ext == dir + name;
      StripNoExtension(dir, name);
    } else {
      StripOneExtension(dir, name, ext);
    }
    BasenameOfDir(dir, name);
  }

  /** Splitting `M + E + L` with a 4-character `M` gives the three parts back. */
  lemma SplitParts(model: string, e: char, scenario: string)
    requires |model| == 4
    ensures Split(model + [e] + scenario) == Some(RecordId(model, e, scenario))
  {
    var name := model + [e] + scenario;
    assert name[0..4] == model && name[4] == e && name[5..] == scenario;
  }

  /** The earlier parser's half of the naming-convention round trip. */
  lemma ParseNamingConventionRaw(dir: string, model: string, e: char, scenario: string, ext: string)
    requires dir == [] || dir[|dir| - 1] == '/'
    requires |model| == 4 && Plain(model) && PlainChar(e) && Plain(scenario)
    requires ext == [] || (ext[0] == '.' && Plain(ext[1..]))
    ensures ParseFileRaw(dir + model + [e] + scenario + ext) == Some(RecordId(model, e, scenario))
  {
    var name := model + [e] + scenario;
    assert dir + model + [e] + scenario + ext == dir + name + ext;
    PlainConcat(model, e, scenario);
    RawCodeNameOfConvention(dir, name, ext);
    SplitParts(model, e, scenario);
  }

  /** The same for a bare file name, with no directory part. */
  lemma ParseNameRaw(model: string, e: char, scenario: string, ext: string)
    requires |model| == 4 && Plain(model) && PlainChar(e) && Plain(scenario)
    requires ext == [] || (ext[0] == '.' && Plain(ext[1..]))
    ensures ParseFileRaw(model + [e] + scenario + ext) == Some(RecordId(model, e, scenario))
  {
    var name := model + [e] + scenario;
    PlainConcat(model, e, scenario);
    RawCodeNameOfConvention([], name, ext);
    assert [] + name == name;
    SplitParts(model, e, scenario);
  }

  /**
   * Round trip of the naming convention: a file `dir + M + E + L + ext`, where the three
   * parts contain no '/' or '.', `dir` is empty or ends in '/', and `ext` is empty or a
   * single extension like ".txt", parses back to `(M, E, L)` (lower-cased by the later parser).
   */
  lemma ParseNamingConvention(dir: string, model: string, e: char, scenario: string, ext: string)
    requires dir == [] || dir[|dir| - 1] == '/'
    requires |model| == 4 && Plain(model) && PlainChar(e) && Plain(scenario)
    requires ext == [] || (ext[0] == '.' && Plain(ext[1..]))
    ensures ParseFileRaw(dir + model + [e] + scenario + ext) == Some(RecordId(model, e, scenario))
    ensures ParseFile(dir + model + [e] + scenario + ext) == Some(RecordId(Lower(model), LowerChar(e), Lower(scenario)))
  {
    ParseNamingConventionRaw(dir, model, e, scenario, ext);
    ParseFileLowersRaw(dir + model + [e] + scenario + ext);
  }

  /** Where the earlier parser meets no upper-case letter, the later parser agrees with it. */
  lemma ParseFileOfLowerCase(p: string)
    requires ParseFileRaw(p).Some?
    requires var id := ParseFileRaw(p).value; NoUpper(id.model) && NoUpper(id.scenario) && !('A' <= id.experiment <= 'Z')
    ensures ParseFile(p) == ParseFileRaw(p)
  {
    ParseFileLowersRaw(p);
    var id := ParseFileRaw(p).value;
    assert Lower(id.model) == id.model;
    assert Lower(id.scenario) == id.scenario;
  }

  // The example file names below are passed as parameters fixed by `requires`
  // (`model == "zzz1"` and so on) and joined by concatenation, instead of being written
  // as one string literal: the verifier can then take the name apart at the joins,
  // where a twelve-character literal makes it evaluate every string operation on it
  // character by character.

  /** The file "zzz1a005.txt" is cut into 'zzz1', a and '005' by the earlier parser. */
  lemma LowerCaseRaw(model: string, scenario: string, ext: string)
    requires model == "zzz1" && scenario == "005" && ext == ".txt"
    ensures ParseFileRaw(model + ['a'] + scenario + ext) == Some(RecordId("zzz1", 'a', "005"))
  {
    assert Plain(model) by {
      forall k | 0 <= k < |model| ensures PlainChar(model[k]) {}
    }
    assert Plain(scenario) by {
      forall k | 0 <= k < |scenario| ensures PlainChar(scenario[k]) {}
    }
    assert Plain(ext[1..]) by {
      forall k | 0 <= k < |ext[1..]| ensures PlainChar(ext[1..][k]) {}
    }
    ParseNameRaw(model, 'a', scenario, ext);
  }

  /** The lower-case file "zzz1a005.txt" parses to model 'zzz1', experiment a, scenario '005'. */
  lemma LowerCaseExample(model: string, scenario: string, ext: string)
    requires model == "zzz1" && scenario == "005" && ext == ".txt"
    ensures ParseFile(model + ['a'] + scenario + ext) == Some(RecordId("zzz1", 'a', "005"))
  {
    LowerCaseRaw(model, scenario, ext);
    assert NoUpper(model) by {
      forall k | 0 <= k < |model| ensures !('A' <= model[k] <= 'Z') {}
    }
    assert NoUpper(scenario) by {
      forall k | 0 <= k < |scenario| ensures !('A' <= scenario[k] <= 'Z') {}
    }
    ParseFileOfLowerCase(model + ['a'] + scenario + ext);
  }

  /** The upper-case file "OGA1A005.txt" keeps its case in the earlier parser. */
  lemma UpperCaseRaw(model: string, scenario: string, ext: string)
    requires model == "OGA1" && scenario == "005" && ext == ".txt"
    ensures ParseFileRaw(model + ['A'] + scenario + ext) == Some(RecordId("OGA1", 'A', "005"))
  {
    assert Plain(model) by {
      forall k | 0 <= k < |model| ensures PlainChar(model[k]) {}
    }
    assert Plain(scenario) by {
      forall k | 0 <= k < |scenario| ensures PlainChar(scenario[k]) {}
    }
    assert Plain(ext[1..]) by {
      forall k | 0 <= k < |ext[1..]| ensures PlainChar(ext[1..][k]) {}
    }
    ParseNameRaw(model, 'A', scenario, ext);
  }

  /** ... and is lower-cased by the later one, so the two parsers disagree on it. */
  lemma UpperCaseNamesDiffer(model: string, scenario: string, ext: string)
    requires model == "OGA1" && scenario == "005" && ext == ".txt"
    ensures ParseFile(model + ['A'] + scenario + ext) == Some(RecordId("oga1", 'a', "005"))
    ensures ParseFile(model + ['A'] + scenario + ext) != ParseFileRaw(model + ['A'] + scenario + ext)
  {
    var p := model + ['A'] + scenario + ext;
    UpperCaseRaw(model, scenario, ext);
    ParseFileLowersRaw(p);
    LowerExample(RecordId("OGA1", 'A', "005"));
  }

  lemma LowerExample(id: RecordId)
    requires id == RecordId("OGA1", 'A', "005")
    ensures LowerId(id) == RecordId("oga1", 'a', "005")
  {
    assert Lower(id.model) == "oga1";
    assert Lower(id.scenario) == "005";
  }
}
