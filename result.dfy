/**
 * Search hits (syng/result.py): the record a source's search produces, its
 * derivation from a file name `artist - title - album.ext`, and its
 * conversion to and from a string dictionary.
 */
module Results {
  import opened Wrappers
  import opened Text

  /** A search hit: identifier within the source, source name, and song metadata. */
  datatype Result = Result(ident: string, source: string, title: string, artist: string, album: string)

  /** The separator between artist, title and album in a file name. */
  const Separator: string := " - "

  /** The `" - "`-separated parts of the final path component, extension removed. */
  function NameParts(filename: string): (parts: seq<string>)
    ensures |parts| >= 1
    ensures Join(parts, Separator) == Basename(StripExt(filename))
  {
    JoinSplit(Basename(StripExt(filename)), Separator);
    Split(Basename(StripExt(filename)), Separator)
  }

  /**
   * `Result.from_filename`: with at least three parts, the first three
   * (whitespace-stripped) are artist, title and album; otherwise the whole
   * extension-stripped file name is the title and artist and album are
   * "Unknown". Every file name yields a result.
   */
  function FromFilename(filename: string, source: string): (r: Result)
    ensures r.ident == filename && r.source == source
    ensures |NameParts(filename)| >= 3 ==>
      r.artist == Strip(NameParts(filename)[0]) &&
      r.title == Strip(NameParts(filename)[1]) &&
      r.album == Strip(NameParts(filename)[2])
    ensures |NameParts(filename)| < 3 ==>
      r.title == StripExt(filename) && r.artist == "Unknown" && r.album == "Unknown"
  {
    var root := StripExt(filename);
    var parts := Split(Basename(root), Separator);
    if |parts| >= 3 then
      Result(filename, source, Strip(parts[1]), Strip(parts[0]), Strip(parts[2]))
    else
      Result(filename, source, root, "Unknown", "Unknown")
  }

  /** A parsed artist, title or album never contains the separator. */
  lemma ParsedFieldsHaveNoSeparator(filename: string, source: string)
    requires |NameParts(filename)| >= 3
    ensures var r := FromFilename(filename, source);
      !Contains(r.artist, Separator) && !Contains(r.title, Separator) && !Contains(r.album, Separator)
  {
    var parts := NameParts(filename);
    SplitPartsHaveNoSeparator(Basename(StripExt(filename)), Separator);
    assert parts[0] in parts && parts[1] in parts && parts[2] in parts;
    StripKeepsNoSeparator(parts[0]);
    StripKeepsNoSeparator(parts[1]);
    StripKeepsNoSeparator(parts[2]);
  }

  /** Stripping a part without the separator leaves none. */
  lemma StripKeepsNoSeparator(p: string)
    requires !Contains(p, Separator)
    ensures !Contains(Strip(p), Separator)
  {
    var lo := |p| - |StripLeft(p)|;
    var q := Strip(p);
    StripIsSlice(p);
    assert p[lo..lo + |q|] == q;
    NoOccurrenceInSlice(p, Separator, lo, lo + |q|);
  }

  /**
   * Only the final path component is split: a `" - "` in a directory name does
   * not count. Under a directory, a parsed name gives the same fields as the
   * bare name, and an unparsed one keeps the directory in its title.
   */
  lemma DirectoryNotSplit(dir: string, name: string, source: string)
    requires '/' !in name
    ensures var r := FromFilename(dir + "/" + name, source);
            var bare := FromFilename(name, source);
      && NameParts(dir + "/" + name) == NameParts(name)
      && r.artist == bare.artist && r.album == bare.album
      && (|NameParts(name)| >= 3 ==> r.title == bare.title)
      && (|NameParts(name)| < 3 ==> r.title == dir + "/" + bare.title)
  {
    StripExtUnderDirectory(dir, name);
    var root := StripExt(name);
    assert '/' !in root by {
      assert forall k :: 0 <= k < |root| ==> root[k] == name[k];
    }
    BasenameUnderDirectory(dir, root);
    BasenameOfPlainName(root);
    assert Basename(StripExt(dir + "/" + name)) == Basename(StripExt(name));
  }

  /** A name without `/` is its own base name. */
  lemma BasenameOfPlainName(name: string)
    requires '/' !in name
    ensures Basename(name) == name
  {
    assert LastIndexOf(name, '/') == -1;
  }

  /** A name is a single part exactly when it holds no `" - "`. */
  lemma OnePart(c: string)
    ensures Split(c, Separator) == [c] <==> !Contains(c, Separator)
  {
    if Split(c, Separator) == [c] {
      SplitPartsHaveNoSeparator(c, Separator);
    }
  }

  /**
   * Parts after the third are ignored: a base name `a - b - c - rest` splits
   * into `a`, `b`, `c` and then the parts of `rest` whenever `a + " -"`,
   * `b + " -"` and `c + " -"` hold no separator (so `Jay-Z - Song - Album - x`
   * qualifies); it then gives the same artist, title and album as `a - b - c`.
   */
  lemma {:induction false} ExtraPartsIgnored(a: string, b: string, c: string, rest: string)
    requires !Contains(a + " -", Separator) && !Contains(b + " -", Separator) && !Contains(c + " -", Separator)
    ensures Split(a + " - " + b + " - " + c + " - " + rest, Separator) == [a, b, c] + Split(rest, Separator)
  {
    var tail2 := c + " - " + rest;
    var tail1 := b + " - " + tail2;
    var name := a + " - " + tail1;
    assert a + " - " + b + " - " + c + " - " + rest == name;
    SplitAfterFirst(tail2, c, rest);
    SplitAfterFirst(tail1, b, tail2);
    SplitAfterFirst(name, a, tail1);
    var more := Split(rest, Separator);
    assert Split(name, Separator) == [a] + ([b] + ([c] + more));
    ConsThree(a, b, c, more);
  }

  /** Three elements put in front one at a time. */
  lemma ConsThree<T>(a: T, b: T, c: T, more: seq<T>)
    ensures [a] + ([b] + ([c] + more)) == [a, b, c] + more
  {
    assert [a, b, c] == [a] + [b] + [c];
  }

  /**
   * A base name `a - b - c` splits into exactly `a`, `b` and `c` whenever
   * `a + " -"` and `b + " -"` hold no separator and `c` holds none.
   */
  lemma {:induction false} ThreeParts(a: string, b: string, c: string)
    requires !Contains(a + " -", Separator) && !Contains(b + " -", Separator) && !Contains(c, Separator)
    ensures Split(a + " - " + b + " - " + c, Separator) == [a, b, c]
  {
    var tail := b + " - " + c;
    var name := a + " - " + tail;
    assert a + " - " + b + " - " + c == name;
    OnePart(c);
    SplitAfterFirst(tail, b, c);
    SplitAfterFirst(name, a, tail);
  }

  /** The keys of `Result.to_dict`. */
  const Keys: set<string> := {"ident", "source", "title", "artist", "album"}

  /** `Result.to_dict`: exactly the five keys, each holding the field of that name. */
  function ToDict(r: Result): (d: map<string, string>)
    ensures d.Keys == Keys
    ensures d["ident"] == r.ident && d["source"] == r.source && d["title"] == r.title
    ensures d["artist"] == r.artist && d["album"] == r.album
  {
    map["ident" := r.ident, "source" := r.source, "title" := r.title,
        "artist" := r.artist, "album" := r.album]
  }

  /** `Result.from_dict`: raises KeyError unless all five keys are present; other keys are ignored. */
  function FromDict(values: map<string, string>): (r: Outcome<Result>)
    ensures r.Returns? <==> Keys <= values.Keys
    ensures r.Raises? ==> r.error == KeyError
  {
    if "ident" in values && "source" in values && "title" in values
       && "artist" in values && "album" in values
    then Returns(Result(values["ident"], values["source"], values["title"],
                        values["artist"], values["album"]))
    else Raises(KeyError)
  }

  /** `from_dict(to_dict(r)) == r`. */
  lemma FromDictToDict(r: Result)
    ensures FromDict(ToDict(r)) == Returns(r)
  {
  }

  /** A dictionary `from_dict` accepts is rebuilt by `to_dict` up to its extra keys. */
  lemma ToDictFromDict(values: map<string, string>)
    requires FromDict(values).Returns?
    ensures ToDict(FromDict(values).value) == map k | k in values && k in Keys :: values[k]
  {
  }
}
