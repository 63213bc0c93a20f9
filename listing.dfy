/**
 * The result-file scan run after a successful download: the destination
 * directory is listed once, and the names of the entries whose extension is
 * exactly "m4a" are kept in enumeration order. The listing itself is an input.
 */
module Listing {
  import opened Wrappers

  /** One item of the directory iterator. */
  datatype DirItem =
    | ItemError                                  // the iterator yielded an error
    | Item(fileName: string, isUnicode: bool)    // isUnicode: the OS name converts to a String

  /** The outcome of listing the directory. */
  datatype ReadDir = Unreadable | Listed(items: seq<DirItem>)

  const AudioExtension: string := "m4a"

  /** Index of the last '.' in `name`, or -1 when it has none. */
  function LastDot(name: string): (d: int)
    ensures -1 <= d < |name|
    ensures d >= 0 ==> name[d] == '.'
    ensures forall j :: d < j < |name| ==> name[j] != '.'
  {
    if name == [] then -1
    else if name[|name| - 1] == '.' then |name| - 1
    else LastDot(name[..|name| - 1])
  }

  /**
   * `Path::extension` of a file name: the part after the last '.', except that a
   * name without a dot, a name whose only dot is its first character, and ".."
   * have none.
   */
  function Extension(name: string): Option<string> {
    var d := LastDot(name);
    if name == ".." || d <= 0 then None else Some(name[d + 1..])
  }

  predicate HasAudioExtension(name: string) {
    Extension(name) == Some(AudioExtension)
  }

  /** The extension is "m4a" exactly when the name ends in ".m4a" after a non-empty stem. */
  lemma AudioExtensionIffSuffix(name: string)
    ensures HasAudioExtension(name) <==> |name| > 4 && name[|name| - 4..] == ".m4a"
  {
    if |name| > 4 && name[|name| - 4..] == ".m4a" {
      SuffixGivesAudioExtension(name);
    }
    if HasAudioExtension(name) {
      AudioExtensionGivesSuffix(name);
    }
  }

  lemma SuffixGivesAudioExtension(name: string)
    requires |name| > 4 && name[|name| - 4..] == ".m4a"
    ensures HasAudioExtension(name)
  {
    var n := |name|;
    var d := LastDot(name);
    assert d == n - 4 by {
      assert name[n - 4] == '.';
      assert name[n - 3] != '.' && name[n - 2] != '.' && name[n - 1] != '.';
    }
    assert name != ".." by {
      assert |name| != 2;
    }
    assert name[d + 1..] == "m4a" by {
      assert name[d + 1..] == name[n - 4..][1..];
    }
  }

  lemma AudioExtensionGivesSuffix(name: string)
    requires HasAudioExtension(name)
    ensures |name| > 4 && name[|name| - 4..] == ".m4a"
  {
    var d := LastDot(name);
    assert d > 0 && name[d + 1..] == "m4a";
    assert d == |name| - 4;
    assert name[|name| - 4..] == [name[d]] + name[d + 1..];
  }

  /** An entry survives the three filters: no iterator error, "m4a" extension, a Unicode name. */
  predicate Kept(item: DirItem) {
    item.Item? && HasAudioExtension(item.fileName) && item.isUnicode
  }

  /** The names of the kept entries, in enumeration order. */
  function AudioNames(items: seq<DirItem>): (names: seq<string>)
    ensures |names| <= |items|
    ensures forall k :: 0 <= k < |names| ==> HasAudioExtension(names[k])
  {
    if items == [] then []
    else (if Kept(items[0]) then [items[0].fileName] else []) + AudioNames(items[1..])
  }

  /** Filtering distributes over concatenation: the order of the listing is kept. */
  lemma {:induction false} AudioNamesAppend(a: seq<DirItem>, b: seq<DirItem>)
    ensures AudioNames(a + b) == AudioNames(a) + AudioNames(b)
    decreases |a|
  {
    if a != [] {
      assert (a + b)[0] == a[0];
      assert (a + b)[1..] == a[1..] + b;
      AudioNamesAppend(a[1..], b);
    } else {
      assert a + b == b;
    }
  }

  /** A name is found exactly when some kept entry carries it. */
  lemma {:induction false} AudioNamesMembers(items: seq<DirItem>, name: string)
    ensures name in AudioNames(items) <==>
      exists i :: 0 <= i < |items| && Kept(items[i]) && items[i].fileName == name
    decreases |items|
  {
    if items != [] {
      AudioNamesMembers(items[1..], name);
      if name in AudioNames(items[1..]) {
        var i :| 0 <= i < |items[1..]| && Kept(items[1..][i]) && items[1..][i].fileName == name;
        assert Kept(items[i + 1]) && items[i + 1].fileName == name;
      }
      if exists i :: 0 <= i < |items| && Kept(items[i]) && items[i].fileName == name {
        var i :| 0 <= i < |items| && Kept(items[i]) && items[i].fileName == name;
        if i > 0 {
          assert items[1..][i - 1] == items[i];
        }
      }
    }
  }

  /** The files shown after success; a directory that cannot be read yields none. */
  function FilesFound(listing: ReadDir): (names: seq<string>)
    ensures listing.Unreadable? ==> names == []
    ensures listing.Listed? ==> |names| <= |listing.items|
    ensures forall k :: 0 <= k < |names| ==> HasAudioExtension(names[k])
  {
    match listing
    case Unreadable => []
    case Listed(items) => AudioNames(items)
  }
}
