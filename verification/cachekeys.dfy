/** Where the generator keeps its per-speech files: both are named by the
    md5 of the speech argument, a path string (not the audio's content). */
module CacheKeys {

  /** A deterministic hash of a string, standing for the `md5` package. */
  type Hash = string -> string

  const DataDir: string := "/data/"
  const JsonSuffix: string := ".json"
  const ConcatSuffix: string := ".ffconcat"

  /** The part of both file names that the speech argument determines. */
  function Stem(dirname: string, key: string): string
  {
    dirname + DataDir + key
  }

  /** The cached mouth-cue file. */
  function JsonPath(dirname: string, key: string): string
  {
    Stem(dirname, key) + JsonSuffix
  }

  /** The generated ffconcat script. */
  function ConcatPath(dirname: string, key: string): string
  {
    Stem(dirname, key) + ConcatSuffix
  }

  /** The pair of files used for one speech argument. */
  function CachePaths(dirname: string, md5: Hash, speech: string): (paths: (string, string))
    ensures |paths.0| - |JsonSuffix| == |paths.1| - |ConcatSuffix| == |Stem(dirname, md5(speech))|
    ensures paths.0[..|paths.0| - |JsonSuffix|] == paths.1[..|paths.1| - |ConcatSuffix|] == Stem(dirname, md5(speech))
    ensures paths.0[|paths.0| - |JsonSuffix|..] == JsonSuffix
    ensures paths.1[|paths.1| - |ConcatSuffix|..] == ConcatSuffix
  {
    var key := md5(speech);
    var stem := Stem(dirname, key);
    assert JsonPath(dirname, key)[..|stem|] == stem;
    assert ConcatPath(dirname, key)[..|stem|] == stem;
    (JsonPath(dirname, key), ConcatPath(dirname, key))
  }

  /** Equal stems exactly when the keys are equal. */
  lemma StemInjective(dirname: string, k1: string, k2: string)
    ensures Stem(dirname, k1) == Stem(dirname, k2) <==> k1 == k2
  {
    var prefix := dirname + DataDir;
    if Stem(dirname, k1) == Stem(dirname, k2) {
      assert k1 == Stem(dirname, k1)[|prefix|..];
      assert k2 == Stem(dirname, k2)[|prefix|..];
    }
  }

  lemma SuffixCancels(a: string, b: string, suffix: string)
    ensures a + suffix == b + suffix <==> a == b
  {
    if a + suffix == b + suffix {
      assert a == (a + suffix)[..|a|];
      assert b == (b + suffix)[..|b|];
    }
  }

  /** Two speech arguments share a cache file exactly when their hashes agree;
      the same holds for the script file. */
  lemma SharedCacheIffSameKey(dirname: string, md5: Hash, s1: string, s2: string)
    ensures CachePaths(dirname, md5, s1).0 == CachePaths(dirname, md5, s2).0 <==> md5(s1) == md5(s2)
    ensures CachePaths(dirname, md5, s1).1 == CachePaths(dirname, md5, s2).1 <==> md5(s1) == md5(s2)
  {
    StemInjective(dirname, md5(s1), md5(s2));
    SuffixCancels(Stem(dirname, md5(s1)), Stem(dirname, md5(s2)), JsonSuffix);
    SuffixCancels(Stem(dirname, md5(s1)), Stem(dirname, md5(s2)), ConcatSuffix);
  }

  /** A script file is never the cue file of any speech, its own or another's,
      so writing a script cannot overwrite cached cues. */
  lemma ScriptNeverClobbersCache(dirname: string, k1: string, k2: string)
    ensures JsonPath(dirname, k1) != ConcatPath(dirname, k2)
  {
    var j := JsonPath(dirname, k1);
    var c := ConcatPath(dirname, k2);
    assert j[|j| - 1] == 'n';
    assert c[|c| - 1] == 't';
  }
}
