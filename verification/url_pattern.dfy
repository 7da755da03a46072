/** The input component's URL test: after trimming, the whole string must match
    `^(https?:\/\/)?([a-zA-Z0-9-]+\.)+[a-zA-Z]{2,}(\/.*)?$`. The pattern is stated
    declaratively (`Matches`) and recognised by hand (`Recognise`): strip the
    scheme, scan the host with a small automaton up to the first `/`, and check
    that the rest has no line terminator. `RecogniseCorrect` proves the two agree. */
module UrlPattern {
  import opened JsString

  predicate IsAsciiLetter(c: char)
  {
    'a' <= c <= 'z' || 'A' <= c <= 'Z'
  }

  /** `[a-zA-Z0-9-]` */
  predicate IsLabelChar(c: char)
  {
    IsAsciiLetter(c) || '0' <= c <= '9' || c == '-'
  }

  predicate AllLabelChars(w: string)
  {
    forall k :: 0 <= k < |w| ==> IsLabelChar(w[k])
  }

  predicate AllLetters(w: string)
  {
    forall k :: 0 <= k < |w| ==> IsAsciiLetter(w[k])
  }

  predicate NoLineTerminators(w: string)
  {
    forall k :: 0 <= k < |w| ==> !IsLineTerminator(w[k])
  }

  // ---------------------------------------------------------------------------
  // The pattern, read declaratively
  // ---------------------------------------------------------------------------

  /** `x` ends with a non-empty label starting at `m`, followed by the final dot. */
  ghost predicate LastLabelAt(x: string, m: int)
  {
    0 <= m < |x| - 1 && x[|x| - 1] == '.' && AllLabelChars(x[m..|x| - 1])
  }

  /** `([a-zA-Z0-9-]+\.)+`: one or more labels, each followed by a dot; the last
      repetition is peeled off the right. */
  ghost predicate Labels(x: string)
    decreases |x|
  {
    exists m :: LastLabelAt(x, m) && (m == 0 || Labels(x[..m]))
  }

  /** `[a-zA-Z]{2,}` */
  ghost predicate Tld(w: string)
  {
    |w| >= 2 && AllLetters(w)
  }

  ghost predicate HostAt(x: string, j: int)
  {
    0 <= j <= |x| && Labels(x[..j]) && Tld(x[j..])
  }

  /** `([a-zA-Z0-9-]+\.)+[a-zA-Z]{2,}` */
  ghost predicate Host(x: string)
  {
    exists j :: HostAt(x, j)
  }

  /** `(https?:\/\/)?` */
  ghost predicate Scheme(x: string)
  {
    x == "" || x == "http://" || x == "https://"
  }

  /** `(\/.*)?` anchored at the end: `.` matches anything but a line terminator. */
  ghost predicate PathPart(x: string)
  {
    x == "" || (x[0] == '/' && NoLineTerminators(x[1..]))
  }

  /** `t` is scheme `t[..i]`, host `t[i..k]` and path `t[k..]`. */
  ghost predicate SplitAt(t: string, i: int, k: int)
  {
    0 <= i <= k <= |t| && Scheme(t[..i]) && Host(t[i..k]) && PathPart(t[k..])
  }

  /** The whole of `t` matches the pattern. */
  ghost predicate Matches(t: string)
  {
    exists i, k :: SplitAt(t, i, k)
  }

  // ---------------------------------------------------------------------------
  // The recogniser
  // ---------------------------------------------------------------------------

  /** The host automaton's state: whether a dot has been seen, the length of the
      current segment, and whether that segment is all letters so far. */
  datatype Scan = Reject | Scanning(seenDot: bool, segLen: nat, segLetters: bool)

  const Start: Scan := Scanning(false, 0, true)

  /** A dot must close a non-empty segment; any other character must be a label
      character. */
  function Step(st: Scan, c: char): Scan
  {
    match st
    case Reject => Reject
    case Scanning(dot, n, letters) =>
      if c == '.' then (if n > 0 then Scanning(true, 0, true) else Reject)
      else if IsLabelChar(c) then Scanning(dot, n + 1, letters && IsAsciiLetter(c))
      else Reject
  }

  /** The automaton's state after reading `h` left to right. */
  function ScanHost(h: string): Scan
    decreases |h|
  {
    if h == [] then Start else Step(ScanHost(h[..|h| - 1]), h[|h| - 1])
  }

  /** Accept when a dot was seen and the last segment is at least two letters. */
  predicate IsHost(h: string)
  {
    var st := ScanHost(h);
    st.Scanning? && st.seenDot && st.segLen >= 2 && st.segLetters
  }

  /** Length of the scheme prefix, if any. */
  function SchemeLength(t: string): (n: nat)
    ensures n <= |t| && Scheme(t[..n])
  {
    if StartsWith(t, "https://") then 8
    else if StartsWith(t, "http://") then 7
    else 0
  }

  /** Position of the first `/`, or the length when there is none. */
  function HostLength(r: string): (n: nat)
    ensures n <= |r| && (n < |r| ==> r[n] == '/')
    ensures forall k :: 0 <= k < n ==> r[k] != '/'
  {
    if r == [] || r[0] == '/' then 0 else 1 + HostLength(r[1..])
  }

  predicate Recognise(t: string)
  {
    var i := SchemeLength(t);
    var k := i + HostLength(t[i..]);
    IsHost(t[i..k]) && NoLineTerminators(t[k..])
  }

  /** `isURL(str)`: the pattern is tested against the trimmed string. */
  predicate IsURL(s: string)
    ensures IsURL(s) <==> Matches(Trim(s))
    ensures IsURL(s) ==> Trim(s) != []
  {
    var t := Trim(s);
    RecogniseCorrect(t);
    assert t == [] ==> ScanHost(t[0..0]) == Start;
    Recognise(t)
  }

  // ---------------------------------------------------------------------------
  // The automaton against the host pattern
  // ---------------------------------------------------------------------------

  /** What a live state says about the input read so far: the current segment
      starts at `|p| - segLen`, everything before it is a run of labels (or
      nothing, before the first dot), and the segment is made of label
      characters. */
  lemma {:induction false} ScanSound(p: string)
    requires ScanHost(p).Scanning?
    ensures var st := ScanHost(p);
            var j := |p| - st.segLen;
            && st.segLen <= |p|
            && (st.seenDot ==> Labels(p[..j]))
            && (!st.seenDot ==> j == 0)
            && AllLabelChars(p[j..])
            && (st.segLetters <==> AllLetters(p[j..]))
    decreases |p|
  {
    if p != [] {
      var q := p[..|p| - 1];
      var c := p[|p| - 1];
      ScanSound(q);
      var st' := ScanHost(q);
      var j' := |q| - st'.segLen;
      assert p[j'..|p| - 1] == q[j'..];
      assert p[..j'] == q[..j'];
      if c == '.' {
        assert ScanHost(p) == Scanning(true, 0, true);
        assert p[j'..|p| - 1] == q[j'..];
        assert LastLabelAt(p, j');
        assert j' == 0 || Labels(p[..j']);
        assert p[..|p|] == p;
        assert Labels(p);
      } else {
        assert IsLabelChar(c);
        assert ScanHost(p) == Scanning(st'.seenDot, st'.segLen + 1, st'.segLetters && IsAsciiLetter(c));
        assert p[j'..] == q[j'..] + [c];
        assert AllLabelChars(p[j'..]);
        assert AllLetters(p[j'..]) <==> AllLetters(q[j'..]) && IsAsciiLetter(c);
      }
    }
  }

  /** A live state has read only label characters and dots. */
  lemma {:induction false} ScanChars(p: string)
    requires ScanHost(p).Scanning?
    ensures forall k :: 0 <= k < |p| ==> IsLabelChar(p[k]) || p[k] == '.'
    decreases |p|
  {
    if p != [] {
      ScanChars(p[..|p| - 1]);
      assert forall k :: 0 <= k < |p| - 1 ==> p[k] == p[..|p| - 1][k];
    }
  }

  /** Reading label characters extends the current segment. */
  lemma {:induction false} ScanRun(p: string, q: string, dot: bool, n: nat, letters: bool)
    requires ScanHost(p) == Scanning(dot, n, letters) && AllLabelChars(q)
    ensures ScanHost(p + q) == Scanning(dot, n + |q|, letters && AllLetters(q))
    decreases |q|
  {
    if q == [] {
      assert p + q == p;
    } else {
      var q' := q[..|q| - 1];
      ScanRun(p, q', dot, n, letters);
      assert (p + q)[..|p + q| - 1] == p + q';
      assert AllLetters(q) <==> AllLetters(q') && IsAsciiLetter(q[|q| - 1]);
    }
  }

  /** After a run of labels the automaton sits just past a dot. */
  lemma {:induction false} LabelsScan(x: string)
    requires Labels(x)
    ensures ScanHost(x) == Scanning(true, 0, true)
    decreases |x|
  {
    var m :| LastLabelAt(x, m) && (m == 0 || Labels(x[..m]));
    if m == 0 {
      assert x[..m] == [];
      LastLabelScan(x, m, false);
    } else {
      LabelsScan(x[..m]);
      LastLabelScan(x, m, true);
    }
  }

  /** Reading the last label and its dot from a state just after a dot (or from
      the start) ends just after a dot again. */
  lemma LastLabelScan(x: string, m: int, dot: bool)
    requires LastLabelAt(x, m) && ScanHost(x[..m]) == Scanning(dot, 0, true)
    ensures ScanHost(x) == Scanning(true, 0, true)
  {
    var run := x[m..|x| - 1];
    assert x[..m] + run == x[..|x| - 1];
    ScanRun(x[..m], run, dot, 0, true);
    assert ScanHost(x) == Step(ScanHost(x[..|x| - 1]), x[|x| - 1]);
  }

  /** The automaton accepts exactly the hosts the pattern describes. */
  lemma HostCorrect(h: string)
    ensures IsHost(h) <==> Host(h)
  {
    if IsHost(h) {
      ScanSound(h);
      assert HostAt(h, |h| - ScanHost(h).segLen);
    }
    if Host(h) {
      var j :| HostAt(h, j);
      LabelsScan(h[..j]);
      ScanRun(h[..j], h[j..], true, 0, true);
      assert h[..j] + h[j..] == h;
    }
  }

  /** A host is made of label characters and dots only. */
  lemma HostChars(h: string, c: int)
    ensures Host(h) && 0 <= c < |h| ==> IsLabelChar(h[c]) || h[c] == '.'
  {
    HostCorrect(h);
    if IsHost(h) {
      ScanChars(h);
    }
  }

  // ---------------------------------------------------------------------------
  // The recogniser against the whole pattern
  // ---------------------------------------------------------------------------

  /** The position-`c` character of `t` is not a host character, and no `/`
      comes before it. */
  ghost predicate Blocked(t: string, c: int)
  {
    0 <= c < |t| && !IsLabelChar(t[c]) && t[c] != '.' && t[c] != '/'
    && forall j :: 0 <= j < c ==> t[j] != '/'
  }

  /** A host starting at 0 cannot reach past a blocking character, and the path
      after it cannot start before one. */
  lemma NoSplitPastBlock(t: string, k: int, c: int)
    ensures Blocked(t, c) && 0 <= k <= |t| ==> !(Host(t[..k]) && PathPart(t[k..]))
  {
    if Blocked(t, c) && 0 <= k <= |t| {
      if k > c {
        HostChars(t[..k], c);
        assert t[..k][c] == t[c];
      } else {
        assert t[k..][0] == t[k];
      }
    }
  }

  /** Read as a host, a written scheme is cut short by its `:`. */
  lemma SchemeBlocks(t: string)
    ensures StartsWith(t, "https://") ==> Blocked(t, 5)
    ensures StartsWith(t, "http://") ==> Blocked(t, 4)
  {
    if StartsWith(t, "https://") {
      assert t[..8] == "https://";
      assert t[0] == t[..8][0] && t[1] == t[..8][1] && t[2] == t[..8][2];
      assert t[3] == t[..8][3] && t[4] == t[..8][4] && t[5] == t[..8][5];
    }
    if StartsWith(t, "http://") {
      assert t[..7] == "http://";
      assert t[0] == t[..7][0] && t[1] == t[..7][1] && t[2] == t[..7][2];
      assert t[3] == t[..7][3] && t[4] == t[..7][4];
    }
  }

  /** The scheme of a match is the one the recogniser strips. */
  lemma SchemeUnique(t: string, i: int, k: int)
    requires SplitAt(t, i, k)
    ensures i == SchemeLength(t)
  {
    SchemeBlocks(t);
    if i == 0 {
      assert t[..k] == t[i..k];
      NoSplitPastBlock(t, k, 5);
      NoSplitPastBlock(t, k, 4);
    } else if i == 7 {
      assert t[..7] == "http://";
      assert t[4] == t[..7][4];
    } else {
      assert t[..8] == "https://";
    }
  }

  /** The host of a match ends at the first `/` after the scheme. */
  lemma SplitUnique(t: string, i: int, k: int)
    requires SplitAt(t, i, k)
    ensures k == i + HostLength(t[i..])
  {
    var r := t[i..];
    var n := HostLength(r);
    forall c | 0 <= c < k - i
      ensures r[c] != '/'
    {
      HostChars(t[i..k], c);
      assert t[i..k][c] == r[c];
    }
    if k < |t| {
      assert r[k - i] == t[k..][0];
    }
  }

  /** What the recogniser accepts matches the pattern, split where the
      recogniser splits it. */
  lemma RecogniseSound(t: string)
    requires Recognise(t)
    ensures SplitAt(t, SchemeLength(t), SchemeLength(t) + HostLength(t[SchemeLength(t)..]))
  {
    var i := SchemeLength(t);
    var k := i + HostLength(t[i..]);
    HostCorrect(t[i..k]);
    assert t[k..] == [] || (t[k..][0] == '/' && t[k..][1..] == t[k + 1..]);
  }

  /** Whatever matches the pattern is accepted. */
  lemma RecogniseComplete(t: string, i: int, k: int)
    requires SplitAt(t, i, k)
    ensures Recognise(t)
  {
    SchemeUnique(t, i, k);
    SplitUnique(t, i, k);
    HostCorrect(t[i..k]);
    assert t[k..] == [] || (t[k..][0] == '/' && t[k..][1..] == t[k + 1..]);
  }

  /** The recogniser accepts exactly the strings the pattern matches. */
  lemma RecogniseCorrect(t: string)
    ensures Recognise(t) <==> Matches(t)
  {
    if Recognise(t) {
      RecogniseSound(t);
    }
    if Matches(t) {
      var i, k :| SplitAt(t, i, k);
      RecogniseComplete(t, i, k);
    }
  }

  // ---------------------------------------------------------------------------
  // Properties of isURL
  // ---------------------------------------------------------------------------

  /** `isURL` depends only on the trimmed string. */
  lemma IsURLTrimmed(s: string)
    ensures IsURL(s) == IsURL(Trim(s))
  {
    TrimIdempotent(s);
  }

  /** Past the scheme, a character that is neither a host character nor `/`,
      with no `/` before it, makes the string no URL: whatever follows the host
      must start with `/`. */
  lemma ForeignAfterHostRejected(t: string, c: int)
    requires Blocked(t[SchemeLength(t)..], c)
    ensures !Recognise(t)
  {
    var i := SchemeLength(t);
    var r := t[i..];
    var n := HostLength(r);
    assert t[i..i + n] == r[..n];
    ScanCharAt(r[..n], c);
  }

  lemma ScanCharAt(p: string, c: int)
    ensures ScanHost(p).Scanning? && 0 <= c < |p| ==> IsLabelChar(p[c]) || p[c] == '.'
  {
    if ScanHost(p).Scanning? {
      ScanChars(p);
    }
  }

  /** A host has a dot: its labels end with one. */
  lemma HostHasDot(h: string)
    requires Host(h)
    ensures exists d :: 0 <= d < |h| && h[d] == '.'
  {
    var j :| HostAt(h, j);
    var m :| LastLabelAt(h[..j], m) && (m == 0 || Labels(h[..j][..m]));
    assert h[..j][j - 1] == h[j - 1];
  }

  /** A string whose first `:` comes after a dot does not start with a scheme. */
  lemma NoSchemeAhead(r: string, colon: int, d: int)
    requires 0 <= d < colon <= |r| && r[d] == '.'
    requires forall c :: 0 <= c < colon ==> r[c] != ':'
    ensures !StartsWith(r, "https://") && !StartsWith(r, "http://")
  {
    if colon > 5 {
      assert r[5] != ':' && r[4] != ':';
    } else if colon == 5 {
      assert r[4] != ':' && d < 5;
    } else {
      assert d < 4;
    }
  }

  /** A host followed by `:` cannot be mistaken for a scheme, so the recogniser
      strips exactly the scheme written in front of it. */
  lemma SchemeBeforeHost(sch: string, host: string, rest: string)
    requires Scheme(sch) && Host(host)
    ensures SchemeLength(sch + host + ":" + rest) == |sch|
  {
    var r := host + ":" + rest;
    var t := sch + host + ":" + rest;
    assert t == sch + r;
    if sch == "https://" {
      assert t[..8] == sch;
    } else if sch == "http://" {
      assert t[..7] == sch;
      assert t[4] == ':';
    } else {
      HostHasDot(host);
      var d :| 0 <= d < |host| && host[d] == '.';
      forall c | 0 <= c < |host|
        ensures r[c] != ':'
      {
        HostChars(host, c);
        assert r[c] == host[c];
      }
      NoSchemeAhead(r, |host|, d);
    }
  }

  /** A port after the host is rejected: `:` is not a host character and no
      `/` comes before it. */
  lemma PortRejected(sch: string, host: string, port: string)
    requires Scheme(sch) && Host(host)
    ensures !Recognise(sch + host + ":" + port)
  {
    var t := sch + host + ":" + port;
    SchemeBeforeHost(sch, host, port);
    var r := t[|sch|..];
    assert r == host + ":" + port;
    forall c | 0 <= c < |host|
      ensures r[c] != '/'
    {
      HostChars(host, c);
      assert r[c] == host[c];
    }
    assert Blocked(r, |host|);
    ForeignAfterHostRejected(t, |host|);
  }

  /** One label, a dot and a top-level domain form a host. */
  lemma OneLabelHost(name: string, tld: string)
    requires |name| > 0 && AllLabelChars(name) && Tld(tld)
    ensures Host(name + "." + tld)
  {
    var host := name + "." + tld;
    var j := |name| + 1;
    assert host[..j] == name + ".";
    assert (name + ".")[..|name|] == name;
    assert LastLabelAt(host[..j], 0);
    assert host[j..] == tld;
    assert HostAt(host, j);
  }

  /** A scheme, a host and a path, one after the other, match the pattern. */
  lemma SplitMatches(sch: string, host: string, path: string)
    requires Scheme(sch) && Host(host) && PathPart(path)
    ensures Matches(sch + host + path)
  {
    var t := sch + host + path;
    assert t[..|sch|] == sch && t[|sch|..|sch| + |host|] == host && t[|sch| + |host|..] == path;
    assert SplitAt(t, |sch|, |sch| + |host|);
  }

  /** A scheme, a host made of one label and a top-level domain, and a path
      form a URL. */
  lemma UrlAccepted(sch: string, name: string, tld: string, path: string)
    requires Scheme(sch) && |name| > 0 && AllLabelChars(name) && Tld(tld) && PathPart(path)
    ensures Recognise(sch + (name + "." + tld) + path)
  {
    var host := name + "." + tld;
    OneLabelHost(name, tld);
    SplitMatches(sch, host, path);
    RecogniseCorrect(sch + host + path);
  }
}
