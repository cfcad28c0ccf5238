/** Names derived from an image's label and filename, shared by the
    nearest-neighbour matcher and the bag-of-words trainer. */
module LabelledImages {
  import opened CppStd

  /** The key of an image in a batch: its filename qualified by its label. */
  function ImageMapKey(imgLabel: string, filename: string): (key: string)
    ensures |key| == |imgLabel| + 1 + |filename|
    ensures key[..|imgLabel|] == imgLabel && key[|imgLabel|] == '_' && key[|imgLabel| + 1..] == filename
  {
    imgLabel + "_" + filename
  }

  /** Two images with the same filename under different labels get
      different keys. */
  lemma ImageMapKeySeparatesLabels(imgLabel1: string, imgLabel2: string, filename: string)
    requires imgLabel1 != imgLabel2
    ensures ImageMapKey(imgLabel1, filename) != ImageMapKey(imgLabel2, filename)
  {
    if ImageMapKey(imgLabel1, filename) == ImageMapKey(imgLabel2, filename) {
      AppendCancel(imgLabel1 + "_", imgLabel2 + "_", filename);
    }
  }

  /** Example: the key is not injective once labels or filenames
      contain '_'. */
  lemma ImageMapKeyAmbiguous()
    ensures ImageMapKey("a", "b_c") == ImageMapKey("a_b", "c")
  {
  }

  /** `s.substr(0, s.find_last_of('.'))`: the text before the last dot, or
      all of `s` when it has no dot (`substr(0, npos)`). */
  function Stem(s: string): (stem: string)
    requires FitsString(s)
    ensures '.' in s ==> stem == s[..FindLastOf(s, '.')]
    ensures '.' !in s ==> stem == s
  {
    Substr(s, 0, FindLastOf(s, '.')).value
  }

  /** `s.substr(s.find_last_of('.') + 1)`: the text after the last dot. With
      no dot, `npos + 1` wraps around to 0 and this is all of `s`. */
  function Extension(s: string): (ext: string)
    requires FitsString(s)
    ensures '.' in s ==> ext == s[FindLastOf(s, '.') + 1..]
    ensures '.' !in s ==> ext == s
  {
    Substr(s, SizeAdd(FindLastOf(s, '.'), 1)).value
  }

  /** With a dot, stem and extension are the two sides of the last dot. */
  lemma SplitAtLastDot(s: string)
    requires FitsString(s) && '.' in s
    ensures Stem(s) + "." + Extension(s) == s
    ensures '.' !in Extension(s)
  {
    var p := FindLastOf(s, '.');
    assert s == s[..p] + [s[p]] + s[p + 1..];
  }

  /** Without a dot, stem and extension are both the whole name. */
  lemma SplitWithoutDot(s: string)
    requires FitsString(s) && '.' !in s
    ensures Stem(s) == s && Extension(s) == s
  {
  }
}
