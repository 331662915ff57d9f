/**
 * The API-key resource: a watched keys file, one key per line, read as a
 * sequence of strings. Until the file has been loaded the resource holds no
 * list (`data is None`), and every query answers as if it were empty, except
 * indexing, which raises.
 */
module ApiKey {
  import opened Common
  import opened Sentinels

  datatype IndexError = IndexError

  /** The resource: `data` is `None` until the keys file has been parsed. */
  datatype APIKey = APIKey(data: Option<seq<string>>)

  /** `f` applied to each string, in order. */
  function Each(f: string -> string, xs: seq<string>): (r: seq<string>)
    ensures |r| == |xs|
  {
    if xs == [] then [] else [f(xs[0])] + Each(f, xs[1..])
  }

  /** Element `i` of the result is `f` of element `i`. */
  lemma {:induction false} EachAt(f: string -> string, xs: seq<string>, i: nat)
    requires i < |xs|
    ensures Each(f, xs)[i] == f(xs[i])
  {
    if i > 0 {
      EachAt(f, xs[1..], i - 1);
    }
  }

  /** Each line stripped. */
  function StripEach(lines: seq<string>): (r: seq<string>)
    ensures |r| == |lines|
  {
    Each(Strip, lines)
  }

  /** Element `i` of the stripped lines is line `i` stripped. */
  lemma StripEachAt(lines: seq<string>, i: nat)
    requires i < |lines|
    ensures StripEach(lines)[i] == Strip(lines[i])
  {
    EachAt(Strip, lines, i);
  }

  /** The non-empty strings, in order. */
  function NonEmpty(xs: seq<string>): seq<string>
  {
    if xs == [] then [] else (if xs[0] != [] then [xs[0]] else []) + NonEmpty(xs[1..])
  }

  /** The comprehension of `_parse`: each line stripped, the empty results dropped, order kept. */
  function KeysOfLines(lines: seq<string>): seq<string>
  {
    NonEmpty(StripEach(lines))
  }

  /** `_parse` on the file's text: the keys of the lines of the stripped text. */
  function Parse(content: string): seq<string>
  {
    KeysOfLines(SplitLines(Strip(content)))
  }

  /** The resource once the keys file has been read. */
  function Load(content: string): APIKey
  {
    APIKey(Some(Parse(content)))
  }

  /** `self.data or []`. */
  function Keys(k: APIKey): (ks: seq<string>)
    ensures k.data.Some? ==> ks == k.data.value
    ensures k.data.None? ==> ks == []
  {
    if k.data.Some? then k.data.value else []
  }

  /** A stripped string is a substring of the original, starting at offset `a`. */
  lemma StripIsInfix(s: string) returns (a: nat)
    ensures a + |Strip(s)| <= |s| && Strip(s) == s[a..a + |Strip(s)|]
  {
    var l := LStrip(s);
    var r := RStrip(l);
    a := |s| - |l|;
    assert Strip(s) == r;
    assert l == s[a..];
    assert r == l[..|r|];
    assert s[a..][..|r|] == s[a..a + |r|];
  }

  /** Stripping a string free of line boundaries leaves it free of them. */
  lemma StripKeepsNoBoundary(s: string)
    requires forall i :: 0 <= i < |s| ==> !IsLineBoundary(s[i])
    ensures forall i :: 0 <= i < |Strip(s)| ==> !IsLineBoundary(Strip(s)[i])
  {
    var a := StripIsInfix(s);
    forall i | 0 <= i < |Strip(s)|
      ensures !IsLineBoundary(Strip(s)[i])
    {
      assert Strip(s)[i] == s[a + i];
    }
  }

  /** What a key read from one line looks like. */
  predicate TrimmedLine(key: string)
  {
    key != [] && !IsSpace(key[0]) && !IsSpace(key[|key| - 1])
    && forall j :: 0 <= j < |key| ==> !IsLineBoundary(key[j])
  }

  lemma StrippedLineIsTrimmed(line: string)
    requires Strip(line) != []
    requires forall i :: 0 <= i < |line| ==> !IsLineBoundary(line[i])
    ensures TrimmedLine(Strip(line))
  {
    StripTrims(line);
    StripKeepsNoBoundary(line);
  }

  /** Item `j` of the non-empty strings is the non-empty string at some position `m`. */
  lemma {:induction false} NonEmptyAt(xs: seq<string>, j: nat) returns (m: nat)
    requires j < |NonEmpty(xs)|
    ensures m < |xs| && xs[m] != [] && NonEmpty(xs)[j] == xs[m]
  {
    var head := if xs[0] != [] then [xs[0]] else [];
    var tail := NonEmpty(xs[1..]);
    assert NonEmpty(xs) == head + tail;
    if j < |head| {
      m := 0;
    } else {
      var m' := NonEmptyAt(xs[1..], j - |head|);
      assert (head + tail)[j] == tail[j - |head|];
      m := m' + 1;
    }
  }

  /** Each key taken from lines free of boundaries is trimmed and is the stripped form of one of them. */
  lemma KeysOfLinesAreTrimmed(lines: seq<string>)
    requires forall k, i :: 0 <= k < |lines| && 0 <= i < |lines[k]| ==> !IsLineBoundary(lines[k][i])
    ensures forall j :: 0 <= j < |KeysOfLines(lines)| ==>
      TrimmedLine(KeysOfLines(lines)[j])
      && exists m :: 0 <= m < |lines| && KeysOfLines(lines)[j] == Strip(lines[m])
  {
    forall j | 0 <= j < |KeysOfLines(lines)|
      ensures TrimmedLine(KeysOfLines(lines)[j]) && exists m :: 0 <= m < |lines| && KeysOfLines(lines)[j] == Strip(lines[m])
    {
      var m := NonEmptyAt(StripEach(lines), j);
      StripEachAt(lines, m);
      StrippedLineIsTrimmed(lines[m]);
    }
  }

  /** Every parsed key is non-empty, has no whitespace at either end and lies on one line. */
  lemma ParsedKeysAreTrimmed(content: string)
    ensures forall j :: 0 <= j < |Parse(content)| ==> TrimmedLine(Parse(content)[j])
  {
    KeysOfLinesAreTrimmed(SplitLines(Strip(content)));
  }

  lemma {:induction false} NonEmptyKeeps(xs: seq<string>, m: nat)
    requires m < |xs| && xs[m] != []
    ensures xs[m] in NonEmpty(xs)
  {
    if m > 0 {
      NonEmptyKeeps(xs[1..], m - 1);
    }
  }

  /** Conversely, every line that is not blank contributes its stripped form. */
  lemma NonBlankLineIsKey(lines: seq<string>, m: nat)
    requires m < |lines| && Strip(lines[m]) != []
    ensures Strip(lines[m]) in KeysOfLines(lines)
  {
    StripEachAt(lines, m);
    NonEmptyKeeps(StripEach(lines), m);
  }

  lemma {:induction false} NonEmptyAppend(xs: seq<string>, ys: seq<string>)
    ensures NonEmpty(xs + ys) == NonEmpty(xs) + NonEmpty(ys)
  {
    if xs == [] {
      assert xs + ys == ys;
    } else {
      assert (xs + ys)[0] == xs[0];
      assert (xs + ys)[1..] == xs[1..] + ys;
      NonEmptyAppend(xs[1..], ys);
    }
  }

  lemma {:induction false} EachAppend(f: string -> string, xs: seq<string>, ys: seq<string>)
    ensures Each(f, xs + ys) == Each(f, xs) + Each(f, ys)
  {
    if xs == [] {
      assert xs + ys == ys;
    } else {
      assert (xs + ys)[0] == xs[0];
      assert (xs + ys)[1..] == xs[1..] + ys;
      EachAppend(f, xs[1..], ys);
    }
  }

  /** Parsing keeps the file's order: the keys of two runs of lines are the keys of each, in turn. */
  lemma KeysOfLinesAppend(lines1: seq<string>, lines2: seq<string>)
    ensures KeysOfLines(lines1 + lines2) == KeysOfLines(lines1) + KeysOfLines(lines2)
  {
    EachAppend(Strip, lines1, lines2);
    NonEmptyAppend(StripEach(lines1), StripEach(lines2));
  }

  /** `__contains__`: only a string can be a key, and only a loaded list holds any. */
  predicate Contains(k: APIKey, key: PyValue)
  {
    key.PyStr? && key.s in Keys(k)
  }

  lemma ContainsMeaning(k: APIKey, key: PyValue)
    ensures Contains(k, key) <==> key.PyStr? && k.data.Some? && key.s in k.data.value
    ensures !key.PyStr? ==> !Contains(k, key)
  {
  }

  /** `__len__`. */
  function Len(k: APIKey): (n: nat)
    ensures k.data.None? ==> n == 0
    ensures k.data.Some? ==> n == |k.data.value|
  {
    |Keys(k)|
  }

  /** `__iter__`: the loaded keys in file order, nothing before loading. */
  function Iter(k: APIKey): (ks: seq<string>)
    ensures |ks| == Len(k)
    ensures forall key :: key in ks <==> Contains(k, PyStr(key))
  {
    Keys(k)
  }

  /** Python's `list[index]`: a negative index counts from the end. */
  function Index<T>(xs: seq<T>, index: int): (r: Result<T, IndexError>)
    ensures r.Ok? <==> -|xs| <= index < |xs|
    ensures r.Ok? && index >= 0 ==> r.value == xs[index]
    ensures r.Ok? && index < 0 ==> r.value == xs[|xs| + index]
  {
    if 0 <= index < |xs| then Ok(xs[index])
    else if -|xs| <= index < 0 then Ok(xs[|xs| + index])
    else Err(IndexError)
  }

  /** `__getitem__`: raises before loading and outside the list, counts from the end for a negative index. */
  function GetItem(k: APIKey, index: int): (r: Result<string, IndexError>)
    ensures k.data.None? ==> r.Err?
    ensures r.Ok? <==> k.data.Some? && -(Len(k) as int) <= index < Len(k)
    ensures r.Ok? ==> r.value == Iter(k)[if index < 0 then Len(k) + index else index]
  {
    if k.data.None? then Err(IndexError) else Index(k.data.value, index)
  }

  /** Indexing and iterating agree: item `i` of the iteration is `k[i]` and also `k[i - len(k)]`. */
  lemma GetItemAgreesWithIter(k: APIKey, i: nat)
    requires i < Len(k)
    ensures GetItem(k, i) == Ok(Iter(k)[i])
    ensures GetItem(k, i - Len(k)) == Ok(Iter(k)[i])
  {
  }

  /** The `api_keys` property: a copy of the loaded keys, or an empty list. */
  function ApiKeys(k: APIKey): (ks: seq<string>)
    ensures ks == Iter(k)
    ensures forall key :: key in ks <==> Contains(k, PyStr(key))
  {
    Keys(k)
  }

  /** Before the file is loaded the resource is empty, yet indexing raises. */
  lemma UnloadedIsEmpty(index: int)
    ensures Len(APIKey(None)) == 0 && Iter(APIKey(None)) == []
    ensures forall key :: !Contains(APIKey(None), key)
    ensures GetItem(APIKey(None), index).Err?
  {
  }

  /** A loaded file whose text is blank holds no keys, yet indexing it raises only because it is empty. */
  lemma BlankFileHasNoKeys(content: string)
    requires forall i :: 0 <= i < |content| ==> IsSpace(content[i])
    ensures Parse(content) == []
    ensures Len(Load(content)) == 0
  {
    StripEmptyIffBlank(content);
  }
}
