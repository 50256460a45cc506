/** The drawtext filter the /add-text-video route builds from a transcript:
    one clause per segment, the segment's text with every `'` escaped,
    clauses joined with `,` in transcript order. */
module Captions {

  /** One transcript segment. Start and end are carried as the decimal text
      JavaScript renders for them; only their place in the filter matters here. */
  datatype Segment = Segment(start: string, end: string, text: string)

  /** `text.replace(/'/g, "\\'")`: a backslash before every single quote. */
  function Escape(s: string): (r: string)
  {
    if s == [] then []
    else (if s[0] == '\'' then ['\\', '\''] else [s[0]]) + Escape(s[1..])
  }

  /** Removes the backslash in front of each `\'` pair, scanning left to right. */
  function Unescape(s: string): string
  {
    if s == [] then []
    else if |s| >= 2 && s[0] == '\\' && s[1] == '\'' then ['\''] + Unescape(s[2..])
    else [s[0]] + Unescape(s[1..])
  }

  /** The number of single quotes in `s`. */
  function Quotes(s: string): nat
  {
    if s == [] then 0 else (if s[0] == '\'' then 1 else 0) + Quotes(s[1..])
  }

  /** Escaping loses nothing: removing the inserted backslashes gives the text back. */
  lemma {:induction false} UnescapeEscape(s: string)
    ensures Unescape(Escape(s)) == s
  {
    if s != [] {
      UnescapeEscape(s[1..]);
      if s[0] == '\'' {
        assert Escape(s) == ['\\', '\''] + Escape(s[1..]);
        assert Escape(s)[2..] == Escape(s[1..]);
      } else {
        assert Escape(s) == [s[0]] + Escape(s[1..]);
        assert Escape(s)[1..] == Escape(s[1..]);
      }
    }
  }

  /** In the escaped text every single quote directly follows a backslash,
      and exactly one character is added per quote. */
  lemma {:induction false} EscapedQuotesPreceded(s: string)
    ensures |Escape(s)| == |s| + Quotes(s)
    ensures forall i :: 0 <= i < |Escape(s)| && Escape(s)[i] == '\'' ==>
      0 < i && Escape(s)[i - 1] == '\\'
  {
    if s != [] {
      EscapedQuotesPreceded(s[1..]);
      var head: string := if s[0] == '\'' then ['\\', '\''] else [s[0]];
      var r := Escape(s);
      assert r == head + Escape(s[1..]);
      forall i | 0 <= i < |r| && r[i] == '\''
        ensures 0 < i && r[i - 1] == '\\'
      {
        if i >= |head| {
          assert r[i] == Escape(s[1..])[i - |head|];
          if i - |head| == 0 {
            assert false;
          }
          assert r[i - 1] == Escape(s[1..])[i - 1 - |head|];
        }
      }
    }
  }

  /** The fixed text around one segment's fields. */
  const ClauseHead := "drawtext=enable='between(t,"
  const ClauseTail := "':x=(w-text_w)/2:y=h-50:fontsize=24:fontcolor=yellow"

  /** Everything of a clause before the escaped text. */
  function ClauseLead(seg: Segment): string
  {
    ClauseHead + seg.start + "," + seg.end + ")':text='"
  }

  /** The clause one segment maps to. */
  function Clause(seg: Segment): string
  {
    ClauseLead(seg) + Escape(seg.text) + ClauseTail
  }

  /** A clause embeds its segment: it opens with the start and end times,
      and the text between its lead and its fixed tail unescapes to the
      segment's text. */
  lemma ClauseEmbedsSegment(seg: Segment)
    ensures var c, lead := Clause(seg), ClauseLead(seg);
      && |lead| + |ClauseTail| <= |c|
      && c[..|ClauseHead|] == ClauseHead
      && c[|ClauseHead|..|ClauseHead| + |seg.start| + 1] == seg.start + ","
      && c[|ClauseHead| + |seg.start| + 1..|lead|] == seg.end + ")':text='"
      && c[|c| - |ClauseTail|..] == ClauseTail
      && Unescape(c[|lead|..|c| - |ClauseTail|]) == seg.text
  {
    var c, lead, e := Clause(seg), ClauseLead(seg), Escape(seg.text);
    assert c == lead + e + ClauseTail;
    assert c[|lead|..|c| - |ClauseTail|] == e;
    assert c[..|ClauseHead|] == ClauseHead;
    assert c[|ClauseHead|..|ClauseHead| + |seg.start| + 1] == seg.start + ",";
    assert c[|ClauseHead| + |seg.start| + 1..|lead|] == seg.end + ")':text='";
    assert c[|c| - |ClauseTail|..] == ClauseTail;
    UnescapeEscape(seg.text);
  }

  /** `segments.map(Clause)`. */
  function Clauses(segs: seq<Segment>): (r: seq<string>)
    ensures |r| == |segs|
    ensures forall i :: 0 <= i < |segs| ==> r[i] == Clause(segs[i])
  {
    seq(|segs|, i requires 0 <= i < |segs| => Clause(segs[i]))
  }

  /** `parts.join(',')`. */
  function JoinComma(parts: seq<string>): string
  {
    if parts == [] then ""
    else if |parts| == 1 then parts[0]
    else parts[0] + "," + JoinComma(parts[1..])
  }

  /** The filter string handed to ffmpeg's `-vf`. */
  function BuildFilter(segs: seq<Segment>): string
  {
    JoinComma(Clauses(segs))
  }

  /** Where part `i` starts in the joined string: the lengths of the parts
      before it, plus one separator after each of them. */
  function Offset(parts: seq<string>, i: nat): nat
    requires i <= |parts|
  {
    if i == 0 then 0 else |parts[0]| + 1 + Offset(parts[1..], i - 1)
  }

  /** The joined string is exactly as long as its parts and separators;
      joining no parts gives the empty string. */
  lemma {:induction false} JoinLength(parts: seq<string>)
    ensures parts == [] ==> JoinComma(parts) == ""
    ensures parts != [] ==> |JoinComma(parts)| == Offset(parts, |parts|) - 1
  {
    if |parts| == 1 {
      assert Offset(parts, 1) == |parts[0]| + 1 + Offset(parts[1..], 0);
    } else if |parts| > 1 {
      var rest := parts[1..];
      JoinLength(rest);
      assert Offset(parts, |parts|) == |parts[0]| + 1 + Offset(rest, |rest|);
    }
  }

  lemma SliceAfter(a: string, b: string, lo: int, hi: int)
    requires |a| <= lo <= hi <= |a| + |b|
    ensures (a + b)[lo..hi] == b[lo - |a|..hi - |a|]
  {
  }

  /** Part `i` sits at `Offset(parts, i)` of the joined string, and a `,`
      follows every part but the last. */
  lemma {:induction false} PartAt(parts: seq<string>, i: nat)
    requires i < |parts|
    ensures Offset(parts, i) + |parts[i]| <= |JoinComma(parts)|
    ensures i < |parts| - 1 ==> Offset(parts, i) + |parts[i]| < |JoinComma(parts)|
    ensures JoinComma(parts)[Offset(parts, i) .. Offset(parts, i) + |parts[i]|] == parts[i]
    ensures i < |parts| - 1 ==> JoinComma(parts)[Offset(parts, i) + |parts[i]|] == ','
  {
    var f := JoinComma(parts);
    var c := parts[0];
    if |parts| == 1 {
      assert f == c;
    } else {
      var rest := parts[1..];
      var g := JoinComma(rest);
      var a := c + ",";
      assert f == a + g;
      if i == 0 {
        assert f[..|c|] == c;
        assert f[|c|] == ',';
      } else {
        PartAt(rest, i - 1);
        assert parts[i] == rest[i - 1];
        var o := Offset(rest, i - 1);
        var n := |parts[i]|;
        assert Offset(parts, i) == |a| + o;
        SliceAfter(a, g, |a| + o, |a| + o + n);
        if i < |parts| - 1 {
          assert f[|a| + o + n] == g[o + n];
        }
      }
    }
  }

  /** The filter lays out one clause per segment, in transcript order:
      clause `i` (which is `Clause(segs[i])`, by the contract of `Clauses`)
      is found at `Offset(Clauses(segs), i)`, a `,` follows every clause but
      the last, and the string holds nothing else. */
  lemma FilterLayout(segs: seq<Segment>, i: nat)
    requires i < |segs|
    ensures var f, parts := BuildFilter(segs), Clauses(segs);
      var o, c := Offset(parts, i), parts[i];
      && |f| == Offset(parts, |parts|) - 1
      && o + |c| <= |f|
      && f[o .. o + |c|] == c
      && (i < |segs| - 1 ==> o + |c| < |f| && f[o + |c|] == ',')
  {
    var parts := Clauses(segs);
    JoinLength(parts);
    PartAt(parts, i);
  }

  /** Appending a segment appends `,` and its clause: the filter keeps the
      transcript's order. */
  lemma {:induction false} FilterAppend(segs: seq<Segment>, seg: Segment)
    requires segs != []
    ensures BuildFilter(segs + [seg]) == BuildFilter(segs) + "," + Clause(seg)
  {
    assert Clauses(segs + [seg]) == Clauses(segs) + [Clause(seg)];
    JoinAppend(Clauses(segs), Clause(seg));
  }

  lemma {:induction false} JoinAppend(parts: seq<string>, p: string)
    requires parts != []
    ensures JoinComma(parts + [p]) == JoinComma(parts) + "," + p
  {
    if |parts| == 1 {
      assert (parts + [p])[1..] == [p];
    } else {
      JoinAppend(parts[1..], p);
      assert (parts + [p])[1..] == parts[1..] + [p];
    }
  }
}
