/** The URL list editor of the webhook settings page: `addUrl` and `removeUrl` as list
    transformations of `settings.webhookUrls`. */
module UrlEditor {
  import opened Lists

  /** The characters JavaScript's `trim` removes: white space and line terminators. */
  predicate IsSpace(c: char) {
    || c == ' ' || c == '\t' || c == '\n' || c == '\r' || c == '\U{000B}' || c == '\U{000C}'
    || c == '\U{00A0}' || c == '\U{1680}' || ('\U{2000}' <= c <= '\U{200A}')
    || c == '\U{2028}' || c == '\U{2029}' || c == '\U{202F}' || c == '\U{205F}'
    || c == '\U{3000}' || c == '\U{FEFF}'
  }

  /** `s.trimStart()`: `s` without its leading white space. */
  function TrimStart(s: string): (r: string)
    ensures |r| <= |s| && r == s[|s| - |r|..]
    ensures forall k :: 0 <= k < |s| - |r| ==> IsSpace(s[k])
    ensures |r| > 0 ==> !IsSpace(r[0])
    decreases |s|
  {
    if |s| > 0 && IsSpace(s[0]) then TrimStart(s[1..]) else s
  }

  /** `s.trimEnd()`: `s` without its trailing white space. */
  function TrimEnd(s: string): (r: string)
    ensures |r| <= |s| && r == s[..|r|]
    ensures forall k :: |r| <= k < |s| ==> IsSpace(s[k])
    ensures |r| > 0 ==> !IsSpace(r[|r| - 1])
    decreases |s|
  {
    if |s| > 0 && IsSpace(s[|s| - 1]) then TrimEnd(s[..|s| - 1]) else s
  }

  /** `s[i..j]` is what is left of `s` once only white space is cut off its two ends. */
  predicate CutAt(s: string, i: int, j: int) {
    && 0 <= i <= j <= |s|
    && (forall k :: 0 <= k < i ==> IsSpace(s[k]))
    && (forall k :: j <= k < |s| ==> IsSpace(s[k]))
  }

  /** `s.trim()`: the piece of `s` left once the white space at both ends is cut off. Everything
      cut off is white space and the piece neither starts nor ends with any, so a blank string
      trims to "" and a string without surrounding white space is kept. */
  function Trim(s: string): (r: string)
    ensures exists i, j :: CutAt(s, i, j) && r == s[i..j]
    ensures |r| > 0 ==> !IsSpace(r[0]) && !IsSpace(r[|r| - 1])
    ensures (forall k :: 0 <= k < |s| ==> IsSpace(s[k])) ==> r == ""
    ensures |s| > 0 && !IsSpace(s[0]) && !IsSpace(s[|s| - 1]) ==> r == s
  {
    var t := TrimStart(s);
    var r := TrimEnd(t);
    CutOfSuffix(s, t, r);
    r
  }

  /** A prefix `r` of a suffix `t` of `s`, where only white space lies outside `r`, is a cut. */
  lemma CutOfSuffix(s: string, t: string, r: string)
    requires |t| <= |s| && t == s[|s| - |t|..]
    requires |r| <= |t| && r == t[..|r|]
    requires forall k :: 0 <= k < |s| - |t| ==> IsSpace(s[k])
    requires forall k :: |r| <= k < |t| ==> IsSpace(t[k])
    ensures CutAt(s, |s| - |t|, |s| - |t| + |r|)
    ensures r == s[|s| - |t|..|s| - |t| + |r|]
  {
    var i := |s| - |t|;
    forall k | i + |r| <= k < |s|
      ensures IsSpace(s[k])
    {
      assert s[k] == t[k - i];
    }
  }

  /** Trimming twice is trimming once. */
  lemma TrimIdempotent(s: string)
    ensures Trim(Trim(s)) == Trim(s)
  {
  }

  /** The page's editing state: the configured list and the text of the "new URL" field. */
  datatype Editor = Editor(urls: seq<string>, newUrl: string)

  /** `addUrl`: a blank or already listed (trimmed) entry is ignored; otherwise it is appended
      and the input field cleared. */
  function AddUrl(e: Editor): (r: Editor)
    ensures Trim(e.newUrl) == "" || Trim(e.newUrl) in e.urls ==> r == e
    ensures Trim(e.newUrl) != "" && Trim(e.newUrl) !in e.urls ==>
      && |r.urls| == |e.urls| + 1
      && r.urls[..|e.urls|] == e.urls
      && r.urls[|e.urls|] == Trim(e.newUrl)
      && r.newUrl == ""
  {
    var candidate := Trim(e.newUrl);
    if candidate != "" && candidate !in e.urls then
      Editor(e.urls + [candidate], "")
    else
      e
  }

  /** A list without duplicates stays without duplicates. */
  lemma AddUrlKeepsDistinct(e: Editor)
    requires Distinct(e.urls)
    ensures Distinct(AddUrl(e).urls)
  {
    var t := Trim(e.newUrl);
    if t != "" && t !in e.urls {
      var r := e.urls + [t];
      assert AddUrl(e).urls == r;
      forall i, j | 0 <= i < j < |r|
        ensures r[i] != r[j]
      {
        assert r[i] == e.urls[i];
      }
    }
  }

  /** Adding the same text a second time changes nothing. */
  lemma AddUrlTwice(e: Editor)
    ensures AddUrl(Editor(AddUrl(e).urls, e.newUrl)).urls == AddUrl(e).urls
  {
    var t := Trim(e.newUrl);
    if t != "" && t !in e.urls {
      assert AddUrl(e).urls == e.urls + [t];
      assert t in e.urls + [t];
    }
  }

  /** `urls.filter((_, i) => i !== index)`, walking the list with the position `index` counts
      down to. An in-range index drops one URL, any other index none;
      `RemoveUrlRemovesOne` says which URL goes. */
  function RemoveUrl(urls: seq<string>, index: int): (r: seq<string>)
    ensures |r| == if 0 <= index < |urls| then |urls| - 1 else |urls|
    decreases |urls|
  {
    if |urls| == 0 then []
    else (if index == 0 then [] else [urls[0]]) + RemoveUrl(urls[1..], index - 1)
  }

  /** Removal never brings in a URL that was not listed. */
  lemma RemoveUrlOnlyDrops(urls: seq<string>, index: int)
    ensures forall x :: x in RemoveUrl(urls, index) ==> x in urls
  {
    RemoveUrlRemovesOne(urls, index);
    if 0 <= index < |urls| {
      forall x | x in RemoveUrl(urls, index)
        ensures x in urls
      {
        assert x in urls[..index] || x in urls[index + 1..];
      }
    }
  }

  /** An in-range index removes exactly that element, the rest in order; any other index
      changes nothing. */
  lemma RemoveUrlRemovesOne(urls: seq<string>, index: int)
    ensures 0 <= index < |urls| ==> RemoveUrl(urls, index) == urls[..index] + urls[index + 1..]
    ensures !(0 <= index < |urls|) ==> RemoveUrl(urls, index) == urls
  {
    if 0 <= index < |urls| {
      RemoveUrlInRange(urls, index);
    } else {
      RemoveUrlKeepsAll(urls, index);
    }
  }

  /** Removing at an in-range position, by induction on the position. */
  lemma {:induction false} RemoveUrlInRange(urls: seq<string>, index: nat)
    requires index < |urls|
    ensures RemoveUrl(urls, index) == urls[..index] + urls[index + 1..]
    decreases |urls|
  {
    var tail := urls[1..];
    if index == 0 {
      assert RemoveUrl(urls, index) == [] + RemoveUrl(tail, -1);
      RemoveUrlKeepsAll(tail, -1);
      assert urls[..0] + urls[1..] == tail;
    } else {
      assert RemoveUrl(urls, index) == [urls[0]] + RemoveUrl(tail, index - 1);
      RemoveUrlInRange(tail, index - 1);
      DropAtTail(urls, index);
    }
  }

  /** Dropping position `index > 0` is keeping the head and dropping `index - 1` of the tail. */
  lemma DropAtTail(urls: seq<string>, index: nat)
    requires 0 < index < |urls|
    ensures urls[..index] + urls[index + 1..] == [urls[0]] + (urls[1..][..index - 1] + urls[1..][index..])
  {
    var tail := urls[1..];
    assert urls[..index] == [urls[0]] + tail[..index - 1];
    assert urls[index + 1..] == tail[index..];
  }

  /** An index outside the list matches no position. */
  lemma {:induction false} RemoveUrlKeepsAll(urls: seq<string>, index: int)
    requires !(0 <= index < |urls|)
    ensures RemoveUrl(urls, index) == urls
    decreases |urls|
  {
    if |urls| > 0 {
      RemoveUrlKeepsAll(urls[1..], index - 1);
      assert RemoveUrl(urls, index) == [urls[0]] + RemoveUrl(urls[1..], index - 1);
      assert urls == [urls[0]] + urls[1..];
    }
  }

  /** `sub` is `s` with some elements left out, the rest in order. */
  predicate IsSubsequence(sub: seq<string>, s: seq<string>)
    decreases |s|
  {
    if |sub| == 0 then true
    else if |s| == 0 then false
    else (sub[0] == s[0] && IsSubsequence(sub[1..], s[1..])) || IsSubsequence(sub, s[1..])
  }

  /** Whatever the index, `removeUrl` only drops elements. */
  lemma {:induction false} RemoveUrlIsSubsequence(urls: seq<string>, index: int)
    ensures IsSubsequence(RemoveUrl(urls, index), urls)
    decreases |urls|
  {
    if |urls| > 0 {
      RemoveUrlIsSubsequence(urls[1..], index - 1);
      var rest := RemoveUrl(urls[1..], index - 1);
      if index == 0 {
        assert RemoveUrl(urls, index) == rest;
      } else {
        assert RemoveUrl(urls, index) == [urls[0]] + rest;
        assert ([urls[0]] + rest)[1..] == rest;
      }
    }
  }
}
