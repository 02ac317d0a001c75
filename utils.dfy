// Which uploads are accepted: a file name is checked against the set of
// allowed extensions by the extension of its last path component, without
// regard to case.

module FileExtensions {
  import opened Text

  /** The extensions an upload may have. */
  const AllowedExtensions: set<string> := {".jpg", ".jpeg", ".png", ".pdf"}

  /** `Path(filename).name` for a POSIX path: the last component that names
      something, passing over empty components (repeated or trailing `/`)
      and `.`; the empty string when there is none. */
  function Name(filename: string): (name: string)
    ensures '/' !in name
    decreases |filename|
  {
    var i := RFind(filename, '/');
    var last := filename[i + 1..];
    if last != "" && last != "." then last
    else if i < 0 then ""
    else Name(filename[..i])
  }

  /** `PurePath.suffix` of a name: from its last `.` on, provided that dot is
      neither the first nor the last character; otherwise empty. */
  function Suffix(name: string): (ext: string)
  {
    var i := RFind(name, '.');
    if 0 < i < |name| - 1 then name[i..] else ""
  }

  /** An extension as `suffix` reports one: a dot followed by at least one
      character, none of them a dot. */
  predicate IsExtension(ext: string) {
    |ext| >= 2 && ext[0] == '.' && '.' !in ext[1..]
  }

  /** `validate_file_extension`. */
  function ValidateFileExtension(filename: string, allowed: set<string>): bool {
    Lower(Suffix(Name(filename))) in allowed
  }

  // ---------------------------------------------------------------------------
  // What the suffix is
  // ---------------------------------------------------------------------------

  /** A non-empty suffix is an extension that ends the name and leaves a
      non-empty stem before it. */
  lemma SuffixShape(name: string)
    ensures var ext := Suffix(name);
      ext == "" || (IsExtension(ext) && |ext| < |name| && name == name[..|name| - |ext|] + ext)
  {
    var i := RFind(name, '.');
    if 0 < i < |name| - 1 {
      assert name[i..][1..] == name[i + 1..];
      assert name == name[..i] + name[i..];
    }
  }

  /** Conversely, a name made of a non-empty stem and an extension has that
      extension as its suffix, whatever dots the stem holds. */
  lemma SuffixOf(stem: string, ext: string)
    requires stem != [] && IsExtension(ext)
    ensures Suffix(stem + ext) == ext
  {
    var rest := ext[1..];
    assert stem + ext == stem + ['.'] + rest;
    RFindAt(stem, rest, '.');
    assert (stem + ext)[|stem|..] == ext;
  }

  /** A name has no suffix exactly when it cannot be written as a non-empty
      stem followed by an extension. */
  lemma NoSuffix(name: string)
    ensures Suffix(name) == "" <==>
      forall k :: 1 <= k < |name| ==> !IsExtension(name[k..])
  {
    if Suffix(name) == "" {
      forall k | 1 <= k < |name| ensures !IsExtension(name[k..]) {
      }
    } else {
      SuffixShape(name);
      var k := |name| - |Suffix(name)|;
      assert name[k..] == Suffix(name);
    }
  }

  // ---------------------------------------------------------------------------
  // What the name is
  // ---------------------------------------------------------------------------

  /** A name on its own is its own last component. */
  lemma NameOfName(name: string)
    requires '/' !in name && name != "" && name != "."
    ensures Name(name) == name
  {
  }

  /** The directory part of a path does not matter. */
  lemma NameIgnoresDirectory(dir: string, name: string)
    requires '/' !in name && name != "" && name != "."
    ensures Name(dir + "/" + name) == name
  {
    RFindAt(dir, name, '/');
    assert (dir + "/" + name)[|dir| + 1..] == name;
  }

  /** Trailing separators and `.` components do not matter either. */
  lemma NameIgnoresTrailing(path: string, tail: string)
    requires tail == "/" || tail == "/."
    ensures Name(path + tail) == Name(path)
  {
    var s := path + tail;
    assert s == path + ['/'] + tail[1..];
    RFindAt(path, tail[1..], '/');
    assert s[|path| + 1..] == tail[1..];
    assert s[..|path|] == path;
  }

  // ---------------------------------------------------------------------------
  // Which uploads are accepted
  // ---------------------------------------------------------------------------

  /** A file whose last component is a non-empty stem and an extension is
      accepted exactly when the lower-cased extension is allowed, whatever
      directory it lies in and whatever dots the stem holds. */
  lemma AcceptedByExtension(dir: string, stem: string, ext: string, allowed: set<string>)
    requires stem != [] && IsExtension(ext) && '/' !in stem + ext
    ensures ValidateFileExtension(stem + ext, allowed) <==> Lower(ext) in allowed
    ensures ValidateFileExtension(dir + "/" + stem + ext, allowed) <==> Lower(ext) in allowed
  {
    var name := stem + ext;
    assert name[|stem|] == '.';
    assert name != "." by { assert |name| >= 3; }
    NameOfName(name);
    assert dir + "/" + stem + ext == dir + "/" + name;
    NameIgnoresDirectory(dir, name);
    SuffixOf(stem, ext);
  }

  /** A file whose last component has no suffix (no dot, a leading dot only,
      or a trailing dot) is refused by any set that does not allow the empty
      extension, as the configured set does not. */
  lemma NoSuffixRefused(filename: string, allowed: set<string>)
    requires Suffix(Name(filename)) == "" && "" !in allowed
    ensures !ValidateFileExtension(filename, allowed)
  {
    assert Lower("") == "";
  }

  /** Every configured extension is a proper extension in lower case, so
      each is accepted in any case spelling, and the empty one is not among
      them. */
  lemma AllowedExtensionsShape()
    ensures "" !in AllowedExtensions
    ensures forall e :: e in AllowedExtensions ==> IsExtension(e) && Lower(e) == e
  {
    forall e | e in AllowedExtensions ensures IsExtension(e) && Lower(e) == e {
      if e == ".jpg" {
      } else if e == ".jpeg" {
      } else if e == ".png" {
      } else {
        assert e == ".pdf";
      }
    }
  }

  /** A hidden file such as `.pdf` has no extension: its only dot is its
      first character, so a set without the empty extension refuses it. */
  lemma HiddenFileRefused(ext: string, allowed: set<string>)
    requires IsExtension(ext) && '/' !in ext && "" !in allowed
    ensures !ValidateFileExtension(ext, allowed)
  {
    assert ext == [] + ['.'] + ext[1..];
    RFindAt([], ext[1..], '.');
    assert ext != "." by { assert |ext| >= 2; }
    NameOfName(ext);
  }

  /** A name ending in a dot has no extension either. */
  lemma TrailingDotRefused(stem: string, allowed: set<string>)
    requires stem != [] && '/' !in stem && "" !in allowed
    ensures !ValidateFileExtension(stem + ".", allowed)
  {
    var name := stem + ".";
    assert name == stem + ['.'] + [];
    RFindAt(stem, [], '.');
    assert name != "." by { assert |name| >= 2; }
    NameOfName(name);
  }
}
