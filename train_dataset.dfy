/**
 * The fingerprint dataset of the training script: the loaded samples,
 * truncated on request, the vocabularies of operating-system and browser
 * names built from their metadata, the generation parameters of one sample,
 * and the sizes of the train/validation split.
 *
 * A sample is reduced to what these read: its `metadata` dict, if it has one,
 * with string values.
 */
module TrainDataset {
  import opened Wrappers

  type Metadata = map<string, string>

  datatype Sample = Sample(metadata: Option<Metadata>)

  /** `fp.get('metadata', {}).get(key, default)`. */
  function MetadataOr(s: Sample, key: string, default: string): string {
    match s.metadata
    case None => default
    case Some(md) => if key in md then md[key] else default
  }

  function OsName(s: Sample): string { MetadataOr(s, "osName", "Unknown") }
  function BrowserName(s: Sample): string { MetadataOr(s, "browserName", "Unknown") }

  function OsNames(data: seq<Sample>): (names: seq<string>)
    ensures |names| == |data| && forall i :: 0 <= i < |data| ==> names[i] == OsName(data[i])
  {
    seq(|data|, i requires 0 <= i < |data| => OsName(data[i]))
  }

  function BrowserNames(data: seq<Sample>): (names: seq<string>)
    ensures |names| == |data| && forall i :: 0 <= i < |data| ==> names[i] == BrowserName(data[i])
  {
    seq(|data|, i requires 0 <= i < |data| => BrowserName(data[i]))
  }

  /**
   * The vocabulary of a sequence of names: each name not yet present gets the
   * number of names present so far as its index.
   */
  function Vocab(names: seq<string>): map<string, nat>
    decreases |names|
  {
    if names == [] then map[]
    else
      var v := Vocab(names[..|names| - 1]);
      var x := names[|names| - 1];
      if x in v then v else v[x := |v|]
  }

  /** The vocabulary is a numbering of the distinct names: its keys are the names, its values 0, 1, ..., one per key. */
  ghost predicate Numbering(v: map<string, nat>, names: seq<string>) {
    && (forall x :: x in v <==> x in names)
    && (forall x :: x in v ==> v[x] < |v|)
    && (forall x, y :: x in v && y in v && v[x] == v[y] ==> x == y)
    && (forall i :: 0 <= i < |v| ==> i in v.Values)
  }

  lemma VocabAppend(names: seq<string>, x: string)
    ensures Vocab(names + [x]) == if x in Vocab(names) then Vocab(names) else Vocab(names)[x := |Vocab(names)|]
  {
    assert (names + [x])[..|names|] == names;
  }

  lemma {:induction false} VocabKeys(names: seq<string>)
    ensures forall x :: x in Vocab(names) <==> x in names
    decreases |names|
  {
    if names != [] {
      var p := names[..|names| - 1];
      assert names == p + [names[|names| - 1]];
      VocabKeys(p);
    }
  }

  lemma {:induction false} VocabValues(names: seq<string>)
    ensures forall x :: x in Vocab(names) ==> Vocab(names)[x] < |Vocab(names)|
    ensures forall x, y :: x in Vocab(names) && y in Vocab(names) && Vocab(names)[x] == Vocab(names)[y] ==> x == y
    ensures forall i :: 0 <= i < |Vocab(names)| ==> i in Vocab(names).Values
    decreases |names|
  {
    if names != [] {
      var p := names[..|names| - 1];
      var x := names[|names| - 1];
      VocabValues(p);
      var v := Vocab(p);
      if x !in v {
        var w := v[x := |v|];
        assert |w| == |v| + 1;
        forall i | 0 <= i < |w|
          ensures i in w.Values
        {
          if i == |v| {
            assert w[x] == i;
          } else {
            assert i in v.Values;
            var y :| y in v && v[y] == i;
            assert w[y] == i;
          }
        }
      }
    }
  }

  lemma VocabIsNumbering(names: seq<string>)
    ensures Numbering(Vocab(names), names)
  {
    VocabKeys(names);
    VocabValues(names);
  }

  /** One more sample extends both vocabularies as the loop of `build_vocab` does. */
  lemma VocabStep(d: seq<Sample>, i: nat)
    requires i < |d|
    ensures var v := Vocab(OsNames(d[..i])); var x := OsName(d[i]);
            Vocab(OsNames(d[..i + 1])) == if x in v then v else v[x := |v|]
    ensures var v := Vocab(BrowserNames(d[..i])); var x := BrowserName(d[i]);
            Vocab(BrowserNames(d[..i + 1])) == if x in v then v else v[x := |v|]
  {
    assert OsNames(d[..i + 1]) == OsNames(d[..i]) + [OsName(d[i])];
    assert BrowserNames(d[..i + 1]) == BrowserNames(d[..i]) + [BrowserName(d[i])];
    VocabAppend(OsNames(d[..i]), OsName(d[i]));
    VocabAppend(BrowserNames(d[..i]), BrowserName(d[i]));
  }

  /**
   * Indices follow first occurrence: a name already present leaves the
   * vocabulary as it is, and a new one gets the next index.
   */
  lemma VocabFirstOccurrence(names: seq<string>, x: string)
    ensures x in names ==> Vocab(names + [x]) == Vocab(names)
    ensures x !in names ==> x in Vocab(names + [x]) && Vocab(names + [x])[x] == |Vocab(names)|
  {
    VocabAppend(names, x);
    VocabIsNumbering(names);
  }

  /**
   * Python's `data[:n]` for a count that may be negative: a negative count
   * drops that many samples from the end.
   */
  function SliceTo(data: seq<Sample>, n: int): (r: seq<Sample>)
    ensures |r| <= |data| && r == data[..|r|]
    ensures n >= 0 ==> |r| == if n < |data| then n else |data|
    ensures n < 0 ==> if -n < |data| then |r| + -n == |data| else r == []
  {
    if n >= 0 then data[..if n < |data| then n else |data|]
    else data[..if |data| + n > 0 then |data| + n else 0]
  }

  /** `if max_samples: data = data[:max_samples]`: neither `None` nor 0 truncates. */
  function Truncate(data: seq<Sample>, maxSamples: Option<int>): (r: seq<Sample>)
    ensures maxSamples.None? || maxSamples == Some(0) ==> r == data
    ensures |r| <= |data| && r == data[..|r|]
    ensures maxSamples.Some? && maxSamples.value > 0 ==>
              |r| == if maxSamples.value < |data| then maxSamples.value else |data|
  {
    match maxSamples
    case None => data
    case Some(n) => if n == 0 then data else SliceTo(data, n)
  }

  /** The only country the training data is labelled with. */
  const DefaultCountry: string := "US"

  /** `country_vocab` after the loop: `'US'` is set once per sample, so only a non-empty dataset has it. */
  function CountryVocab(data: seq<Sample>): map<string, nat> {
    if |data| > 0 then map[DefaultCountry := 0] else map[]
  }

  lemma CountryVocabStep(d: seq<Sample>, i: nat)
    requires i < |d|
    ensures CountryVocab(d[..i + 1]) == CountryVocab(d[..i])[DefaultCountry := 0]
  {
  }

  class FingerprintDataset {
    var data: seq<Sample>
    var osVocab: map<string, nat>
    var browserVocab: map<string, nat>
    var countryVocab: map<string, nat>

    /** `__init__` on the decoded JSON list: truncation, then `build_vocab`. */
    constructor (loaded: seq<Sample>, maxSamples: Option<int>)
      ensures data == Truncate(loaded, maxSamples)
      ensures osVocab == Vocab(OsNames(data)) && browserVocab == Vocab(BrowserNames(data))
      ensures countryVocab == CountryVocab(data)
    {
      var samples := loaded;
      if maxSamples.Some? && maxSamples.value != 0 {
        samples := SliceTo(samples, maxSamples.value);
      }
      data := samples;
      new;
      BuildVocab();
    }

    /**
     * `build_vocab`: one pass over the samples, numbering each new OS and
     * browser name in the order they first appear.
     */
    method BuildVocab()
      modifies this
      ensures data == old(data)
      ensures osVocab == Vocab(OsNames(data)) && browserVocab == Vocab(BrowserNames(data))
      ensures countryVocab == CountryVocab(data)
    {
      var d := data;
      var os: map<string, nat>, browsers: map<string, nat>, countries: map<string, nat> := map[], map[], map[];
      for i := 0 to |d|
        invariant data == d
        invariant os == Vocab(OsNames(d[..i]))
        invariant browsers == Vocab(BrowserNames(d[..i]))
        invariant countries == CountryVocab(d[..i])
      {
        VocabStep(d, i);
        var osName := OsName(d[i]);
        if osName !in os {
          os := os[osName := |os|];
        }
        var browserName := BrowserName(d[i]);
        if browserName !in browsers {
          browsers := browsers[browserName := |browsers|];
        }
        CountryVocabStep(d, i);
        countries := countries[DefaultCountry := 0];
      }
      assert d[..|d|] == d;
      osVocab, browserVocab, countryVocab := os, browsers, countries;
    }
  }

  /** The generation parameters of one sample, as `__getitem__` builds them. */
  function ItemParams(s: Sample): (p: map<string, string>)
    ensures p.Keys == {"country", "os", "browser", "browserVersion"}
    ensures p["country"] == DefaultCountry && p["os"] == OsName(s) && p["browser"] == BrowserName(s)
    ensures p["browserVersion"] == MetadataOr(s, "browserVersion", "120")
  {
    map["country" := DefaultCountry, "os" := OsName(s), "browser" := BrowserName(s),
        "browserVersion" := MetadataOr(s, "browserVersion", "120")]
  }

  datatype IndexError = IndexError

  /** `self.data[idx]`, with Python's negative indices and its IndexError. */
  function GetItem(data: seq<Sample>, idx: int): (r: Result<map<string, string>, IndexError>)
    ensures r.Success? <==> -|data| <= idx < |data|
    ensures 0 <= idx < |data| ==> r == Success(ItemParams(data[idx]))
    ensures -|data| <= idx < 0 ==> r == Success(ItemParams(data[|data| + idx]))
  {
    if 0 <= idx < |data| then Success(ItemParams(data[idx]))
    else if -|data| <= idx < 0 then Success(ItemParams(data[|data| + idx]))
    else Failure(IndexError)
  }

  /** A missing metadata dict or a missing name gives the key "Unknown", and a missing version "120". */
  lemma MissingMetadataIsUnknown(s: Sample)
    requires s.metadata.None?
    ensures ItemParams(s) == map["country" := DefaultCountry, "os" := "Unknown", "browser" := "Unknown", "browserVersion" := "120"]
  {
  }

  /**
   * `train_size = int(0.8 * n)`, `val_size = n - train_size`: the train part
   * is the floor of four fifths of the samples and the two parts add up.
   */
  function SplitSizes(n: nat): (sizes: (nat, nat))
    ensures sizes.0 + sizes.1 == n
    ensures 5 * sizes.0 <= 4 * n < 5 * (sizes.0 + 1)
  {
    var train := (4 * n) / 5;
    (train, n - train)
  }

  /** The validation part is never empty for five or more samples, and the train part not for two or more. */
  lemma SplitSizesNonEmpty(n: nat)
    ensures n >= 5 ==> SplitSizes(n).1 >= 1
    ensures n >= 2 ==> SplitSizes(n).0 >= 1
  {
  }
}
