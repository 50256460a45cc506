/** Request admission and video-id extraction, as every route does it:
    the body must carry a truthy `youtubeUrl` and defined `startTime` and
    `duration`; the id is `youtubeUrl.split('v=')[1]?.split('&')[0]`. */
module VideoId {
  import opened JsValues
  import opened Wrappers

  /** The two-character separator `v=` starts at index `i` of `s`. */
  predicate SeparatorAt(s: string, i: int)
  {
    0 <= i && i + 1 < |s| && s[i] == 'v' && s[i + 1] == '='
  }

  predicate HasSeparator(s: string)
  {
    exists i | 0 <= i < |s| :: SeparatorAt(s, i)
  }

  /** The first index at or after `from` where `v=` starts, as `split` finds it. */
  function FindSeparator(s: string, from: nat): (r: Option<nat>)
    requires from <= |s|
    ensures r.Some? ==> from <= r.value && SeparatorAt(s, r.value)
    ensures r.Some? ==> forall j :: from <= j < r.value ==> !SeparatorAt(s, j)
    ensures r.None? ==> forall j :: from <= j ==> !SeparatorAt(s, j)
    decreases |s| - from
  {
    if from + 1 >= |s| then None
    else if s[from] == 'v' && s[from + 1] == '=' then Some(from)
    else FindSeparator(s, from + 1)
  }

  /** `s.split('v=')[0]`: the text before the first `v=`, or all of `s`. */
  function FirstPiece(s: string): (r: string)
    ensures r <= s
    ensures forall k :: 0 <= k < |r| ==> !SeparatorAt(s, k)
    ensures |r| < |s| ==> SeparatorAt(s, |r|)
  {
    match FindSeparator(s, 0)
    case None => s
    case Some(j) => s[..j]
  }

  /** `s.split('v=')[1]`: the text between the first and the second `v=`
      (or up to the end), or `None` when `s` holds no `v=` at all. */
  function SecondPiece(s: string): Option<string>
  {
    match FindSeparator(s, 0)
    case None => None
    case Some(i) => Some(FirstPiece(s[i + 2..]))
  }

  /** `p.split('&')[0]`: the text before the first `&`. */
  function BeforeAmp(p: string): (r: string)
    ensures r <= p
    ensures '&' !in r
    ensures |r| < |p| ==> p[|r|] == '&'
  {
    if p == [] || p[0] == '&' then [] else [p[0]] + BeforeAmp(p[1..])
  }

  /** The video id of a URL; `None` is the route's "Invalid YouTube URL." */
  function ExtractId(url: string): Option<string>
  {
    match SecondPiece(url)
    case None => None
    case Some(p) => var id := BeforeAmp(p); if id == [] then None else Some(id)
  }

  /** A piece of text that can be an id: non-empty, no `&`, no `v=`. */
  predicate WellFormedId(id: string)
  {
    id != [] && '&' !in id && !HasSeparator(id)
  }

  /** What may follow the id in a URL from which it is extracted. */
  predicate EndsId(rest: string)
  {
    rest == [] || rest[0] == '&' || SeparatorAt(rest, 0)
  }

  // ----- properties of the extraction -----

  lemma {:induction false} BeforeAmpOfPrefix(a: string, b: string)
    requires '&' !in a
    requires b == [] || b[0] == '&'
    ensures BeforeAmp(a + b) == a
  {
    if a != [] {
      assert (a + b)[0] == a[0];
      assert (a + b)[1..] == a[1..] + b;
      BeforeAmpOfPrefix(a[1..], b);
    } else {
      assert a + b == b;
    }
  }

  /** The id is defined exactly when the URL holds `v=` and the text right
      after the first `v=` is neither empty nor begins with `&` or `v=`. */
  lemma ExtractIdDefined(url: string)
    ensures ExtractId(url).Some? <==>
      (FindSeparator(url, 0).Some? &&
       var tail := url[FindSeparator(url, 0).value + 2..];
       tail != [] && tail[0] != '&' && !SeparatorAt(tail, 0))
  {
    if FindSeparator(url, 0).Some? {
      var tail := url[FindSeparator(url, 0).value + 2..];
      var p := FirstPiece(tail);
      if p != [] {
        assert p[0] == tail[0];
      }
    }
  }

  /** The id cut from the text after the first `v=` is well formed, opens
      that text, and is followed by what `EndsId` allows. */
  lemma PieceShape(tail: string)
    requires BeforeAmp(FirstPiece(tail)) != []
    ensures var id := BeforeAmp(FirstPiece(tail));
      && WellFormedId(id)
      && |id| <= |tail| && tail[..|id|] == id
      && EndsId(tail[|id|..])
  {
    var p := FirstPiece(tail);
    var id := BeforeAmp(p);
    forall k | 0 <= k < |id| && SeparatorAt(id, k) ensures false {
      assert SeparatorAt(tail, k);
    }
    if |id| < |p| {
      assert tail[|id|..][0] == p[|id|];
    } else if |p| < |tail| {
      assert SeparatorAt(tail, |p|);
      assert tail[|id|..][0] == tail[|p|] && tail[|id|..][1] == tail[|p| + 1];
    }
  }

  /** An extracted id is well formed and is the text that directly follows
      the first `v=` of the URL, ended by `&`, by a second `v=` or by the end. */
  lemma ExtractIdShape(url: string)
    requires ExtractId(url).Some?
    ensures FindSeparator(url, 0).Some?
    ensures var id, i := ExtractId(url).value, FindSeparator(url, 0).value;
      && WellFormedId(id)
      && i + 2 + |id| <= |url|
      && url[i + 2 .. i + 2 + |id|] == id
      && EndsId(url[i + 2 + |id|..])
  {
    var i := FindSeparator(url, 0).value;
    var tail := url[i + 2..];
    var id := BeforeAmp(FirstPiece(tail));
    assert SecondPiece(url) == Some(FirstPiece(tail));
    assert ExtractId(url) == Some(id);
    PieceShape(tail);
    SuffixSlices(url, i + 2, |id|);
  }

  lemma SuffixSlices(s: string, a: nat, n: nat)
    requires a + n <= |s|
    ensures s[a..][..n] == s[a..a + n]
    ensures s[a..][n..] == s[a + n..]
  {
  }

  /** A well-formed id ended as `EndsId` allows is the first piece's id. */
  lemma PieceOfComposed(id: string, rest: string)
    requires WellFormedId(id)
    requires EndsId(rest)
    ensures BeforeAmp(FirstPiece(id + rest)) == id
  {
    var tail := id + rest;
    forall j | 0 <= j < |id| ensures !SeparatorAt(tail, j) {
      if j + 1 < |id| {
        assert !SeparatorAt(id, j);
      } else if rest != [] {
        assert tail[j + 1] == rest[0];
      }
    }
    var p := FirstPiece(tail);
    assert |id| <= |p|;
    assert p[..|id|] == id;
    if |p| == |id| {
      assert p == id + [];
      BeforeAmpOfPrefix(id, []);
    } else {
      assert !SeparatorAt(tail, |id|);
      assert tail[|id|..] == rest;
      assert p[|id|] == rest[0] == '&';
      assert p == id + p[|id|..];
      BeforeAmpOfPrefix(id, p[|id|..]);
    }
  }

  /** The converse: a well-formed id placed right after the first `v=` of a
      URL, and ended as `EndsId` allows, is what the route extracts. */
  lemma ExtractIdOfComposed(pre: string, id: string, rest: string)
    requires !HasSeparator(pre)
    requires WellFormedId(id)
    requires EndsId(rest)
    ensures ExtractId(pre + "v=" + id + rest) == Some(id)
  {
    var url := pre + "v=" + id + rest;
    assert url[|pre|] == 'v' && url[|pre| + 1] == '=';
    forall j | 0 <= j < |pre| ensures !SeparatorAt(url, j) {
      if j + 1 < |pre| {
        assert !SeparatorAt(pre, j);
      }
    }
    FirstSeparatorIs(url, |pre|);
    assert url[|pre| + 2..] == id + rest;
    PieceOfComposed(id, rest);
  }

  lemma FirstSeparatorIs(s: string, i: nat)
    requires SeparatorAt(s, i)
    requires forall j :: 0 <= j < i ==> !SeparatorAt(s, j)
    ensures FindSeparator(s, 0) == Some(i)
  {
  }

  /** Extraction is stable: a URL made from an extracted id alone gives the same id back. */
  lemma ExtractIdStable(url: string)
    requires ExtractId(url).Some?
    ensures ExtractId("watch?v=" + ExtractId(url).value) == ExtractId(url)
  {
    var id := ExtractId(url).value;
    ExtractIdShape(url);
    assert !HasSeparator("watch?");
    ExtractIdOfComposed("watch?", id, []);
    assert "watch?" + "v=" + id + [] == "watch?v=" + id;
  }

  // ----- request admission -----

  /** The three fields of the JSON body every route reads. */
  datatype Body = Body(youtubeUrl: JsValue, startTime: JsValue, duration: JsValue)

  /** How a route disposes of a body before it runs any command. */
  datatype Admission =
    | MissingParameters      // 400 "Missing required parameters."
    | UrlNotAString          // `youtubeUrl.split` throws outside the try block: no reply
    | InvalidUrl             // 400 "Invalid YouTube URL."
    | Admitted(url: string, id: string)

  function Admit(body: Body): (r: Admission)
    ensures r.MissingParameters? <==>
      (!Truthy(body.youtubeUrl) || body.startTime.Undefined? || body.duration.Undefined?)
    ensures r.UrlNotAString? <==> !r.MissingParameters? && !body.youtubeUrl.Str?
    ensures r.InvalidUrl? <==>
      !r.MissingParameters? && body.youtubeUrl.Str? && ExtractId(body.youtubeUrl.s).None?
    ensures r.Admitted? ==>
      body.youtubeUrl == Str(r.url) && ExtractId(r.url) == Some(r.id) && WellFormedId(r.id)
  {
    if !Truthy(body.youtubeUrl) || body.startTime.Undefined? || body.duration.Undefined? then
      MissingParameters
    else if !body.youtubeUrl.Str? then
      UrlNotAString
    else
      match ExtractId(body.youtubeUrl.s)
      case None => InvalidUrl
      case Some(id) =>
        ExtractIdShape(body.youtubeUrl.s);
        Admitted(body.youtubeUrl.s, id)
  }

  /** A start time of 0 is falsy in JavaScript but is accepted: only
      `undefined` is refused. */
  lemma ZeroStartAdmitted(url: string, duration: JsValue)
    requires ExtractId(url).Some?
    requires !duration.Undefined?
    ensures Admit(Body(Str(url), Number(0), duration)) == Admitted(url, ExtractId(url).value)
  {
    ExtractIdShape(url);
  }
}
