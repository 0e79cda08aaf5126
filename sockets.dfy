/**
 * How screen_away.py finds the multiplexer's socket when it is loaded: from
 * the output of `screen -ls` when the STY variable says it runs under
 * screen, otherwise from the TMUX variable.  The environment and the output
 * of `screen -ls` are parameters; the script's "no socket" (`None`) and an
 * empty path behave alike (the timer, and with it `os.access`, only runs
 * once a non-empty socket has armed it), so both are the empty string here.
 */
module Sockets {
  import opened Wrappers
  import opened PyStr

  /** `w` occurs in `s` starting at index `p`. */
  predicate OccursAt(s: string, p: nat, w: string) {
    p + |w| <= |s| && s[p..p + |w|] == w
  }

  /**
   * The declarative reading of the pattern `Sockets? in (/.+)\.`: matched
   * at index `p` it can capture the group `d`, a '/' followed by at least one
   * character other than a line break, right before a '.'.
   */
  predicate IsMatch(out: string, p: nat, d: string) {
    && |d| >= 2 && d[0] == '/' && '\n' !in d
    && (OccursAt(out, p, "Sockets in " + d + ".") || OccursAt(out, p, "Socket in " + d + "."))
  }

  /** The match of `re.search` is the leftmost one, and at that index the longest. */
  ghost predicate IsLeftmostLongest(out: string, p: nat, d: string) {
    && IsMatch(out, p, d)
    && (forall q: nat, e :: q < p ==> !IsMatch(out, q, e))
    && (forall e :: IsMatch(out, p, e) ==> |e| <= |d|)
  }

  /** The index of the first line break at or after `i`, or the end of `s`. */
  function LineEnd(s: string, i: nat): (e: nat)
    requires i <= |s|
    ensures i <= e <= |s| && (e == |s| || s[e] == '\n')
    ensures forall k :: i <= k < e ==> s[k] != '\n'
    decreases |s| - i
  {
    if i == |s| || s[i] == '\n' then i else LineEnd(s, i + 1)
  }

  /** The index of the last '.' in `s[lo..hi]`. */
  function LastDot(s: string, lo: nat, hi: nat): (r: Option<nat>)
    requires hi <= |s|
    ensures r.Some? ==> lo <= r.value < hi && s[r.value] == '.'
    ensures r.Some? ==> forall k :: r.value < k < hi ==> s[k] != '.'
    ensures r.None? ==> forall k :: lo <= k < hi ==> s[k] != '.'
    decreases hi
  {
    if hi <= lo then None
    else if s[hi - 1] == '.' then Some(hi - 1)
    else LastDot(s, lo, hi - 1)
  }

  /** Where the '/' that opens the group stands, when `Sockets? in /` occurs at `p`. */
  function SlashAt(out: string, p: nat): (r: Option<nat>)
    ensures r.Some? ==> r.value < |out| && out[r.value] == '/'
  {
    if OccursAt(out, p, "Sockets in /") then Some(p + 11)
    else if OccursAt(out, p, "Socket in /") then Some(p + 10)
    else None
  }

  /** The group the pattern captures at `p`: the greedy `.+` runs up to the last '.' of the line. */
  function MatchAt(out: string, p: nat): (r: Option<string>)
    ensures r.Some? ==> |r.value| >= 2 && r.value[0] == '/'
  {
    match SlashAt(out, p)
    case None => None
    case Some(slash) =>
      match LastDot(out, slash + 2, LineEnd(out, slash + 1))
      case None => None
      case Some(dot) => Some(out[slash..dot])
  }

  lemma MatchAtSound(out: string, p: nat)
    requires MatchAt(out, p).Some?
    ensures IsMatch(out, p, MatchAt(out, p).value)
  {
    var slash := SlashAt(out, p).value;
    var dot := LastDot(out, slash + 2, LineEnd(out, slash + 1)).value;
    assert '\n' !in out[slash..dot] by {
      forall k | slash <= k < dot
        ensures out[k] != '\n'
      {
      }
    }
    if OccursAt(out, p, "Sockets in /") {
      GroupFollows(out, p, "Sockets in ", dot);
    } else {
      GroupFollows(out, p, "Socket in ", dot);
    }
  }

  /** When `prefix + "/"` occurs at `p`, a '.' further on closes a candidate group. */
  lemma GroupFollows(out: string, p: nat, prefix: string, dot: nat)
    requires OccursAt(out, p, prefix + "/")
    requires p + |prefix| < dot < |out| && out[dot] == '.'
    ensures OccursAt(out, p, prefix + out[p + |prefix|..dot] + ".")
  {
    var slash := p + |prefix|;
    assert out[p..slash] == prefix by {
      assert out[p..slash] == out[p..slash + 1][..|prefix|];
    }
    assert out[p..dot + 1] == out[p..slash] + out[slash..dot] + [out[dot]];
  }

  lemma MatchAtComplete(out: string, p: nat, d: string)
    requires IsMatch(out, p, d)
    ensures MatchAt(out, p).Some? && |d| <= |MatchAt(out, p).value|
  {
    var plural := OccursAt(out, p, "Sockets in " + d + ".");
    var prefix := if plural then "Sockets in " else "Socket in ";
    var w := prefix + d + ".";
    assert OccursAt(out, p, w);
    var slash := p + |prefix|;
    assert out[p..p + |w|] == w;
    assert out[p..slash + 1] == w[..|prefix| + 1] == prefix + "/";
    if plural {
      assert OccursAt(out, p, "Sockets in /");
    } else {
      assert out[p + 6] == ' ';
      assert !OccursAt(out, p, "Sockets in /");
      assert OccursAt(out, p, "Socket in /");
    }
    assert SlashAt(out, p) == Some(slash);
    var dotAt := slash + |d|;
    assert out[dotAt] == w[|prefix| + |d|] == '.';
    forall k | slash + 1 <= k <= dotAt
      ensures out[k] != '\n'
    {
      if k < dotAt {
        assert out[k] == w[k - p] == d[k - slash];
      }
    }
    var e := LineEnd(out, slash + 1);
    assert dotAt < e;
  }

  /** `re.search(r'Sockets? in (/.+)\.', out)` from index `p` on, giving the first group. */
  function SearchFrom(out: string, p: nat): (r: Option<string>)
    ensures r.Some? ==> |r.value| >= 2 && r.value[0] == '/'
    decreases |out| - p
  {
    if p >= |out| then None
    else match MatchAt(out, p)
      case Some(d) => Some(d)
      case None => SearchFrom(out, p + 1)
  }

  /** The directory of screen's sockets as `screen -ls` reports it, if it does. */
  function ScreenSocketDir(out: string): (r: Option<string>)
    ensures r.Some? ==> |r.value| >= 2 && r.value[0] == '/'
  {
    SearchFrom(out, 0)
  }

  lemma {:induction false} SearchFromCorrect(out: string, p: nat)
    requires forall q: nat, e :: q < p ==> !IsMatch(out, q, e)
    ensures SearchFrom(out, p).None? ==> forall q: nat, e :: !IsMatch(out, q, e)
    ensures SearchFrom(out, p).Some? ==> exists q: nat :: IsLeftmostLongest(out, q, SearchFrom(out, p).value)
    decreases |out| - p
  {
    if p >= |out| {
      forall q: nat, e | IsMatch(out, q, e)
        ensures false
      {
      }
    } else {
      match MatchAt(out, p)
      case Some(d) =>
        MatchAtSound(out, p);
        forall e | IsMatch(out, p, e)
          ensures |e| <= |d|
        {
          MatchAtComplete(out, p, e);
        }
        assert IsLeftmostLongest(out, p, d);
      case None =>
        forall q: nat, e | q < p + 1
          ensures !IsMatch(out, q, e)
        {
          if q == p && IsMatch(out, q, e) {
            MatchAtComplete(out, p, e);
          }
        }
        SearchFromCorrect(out, p + 1);
    }
  }

  /**
   * The search finds nothing exactly when the pattern matches nowhere, and
   * otherwise gives the group of the leftmost match, taken as long as it can be.
   */
  lemma ScreenSocketDirCorrect(out: string)
    ensures ScreenSocketDir(out).None? <==> forall q: nat, e :: !IsMatch(out, q, e)
    ensures ScreenSocketDir(out).Some? ==> exists q: nat :: IsLeftmostLongest(out, q, ScreenSocketDir(out).value)
  {
    SearchFromCorrect(out, 0);
  }

  /** `os.path.join(a, b)` on POSIX. */
  function PathJoin(a: string, b: string): (r: string)
    ensures EndsWith(r, b)
    ensures a != [] ==> r != []
    ensures (b == [] || b[0] != '/') ==> |a| <= |r| && r[..|a|] == a
  {
    if |b| > 0 && b[0] == '/' then b
    else if a == [] || a[|a| - 1] == '/' then a + b
    else a + "/" + b
  }

  /** `socket_data.rsplit(',', 2)[0]`: the TMUX value without its last two fields. */
  function TmuxSocket(tmux: string): string {
    RSplitFirst(tmux, ',', 2)
  }

  /**
   * tmux sets TMUX to `<socket path>,<server pid>,<session index>`; the
   * script recovers the socket path, even one that holds commas itself.
   */
  lemma TmuxSocketOfEnv(path: string, pid: string, session: string)
    requires ',' !in pid && ',' !in session
    ensures TmuxSocket(path + "," + pid + "," + session) == path
  {
    var s := path + "," + pid + "," + session;
    assert s == path + ("," + pid + "," + session);
    assert s[..|path|] == path;
    CountAppend(path, "," + pid + "," + session, ',');
    CountAppend("," + pid, "," + session, ',');
    CountAppend(",", pid, ',');
    CountAppend(",", session, ',');
    assert [','][..0] == [];
    CountAbsent(pid, ',');
    CountAbsent(session, ',');
    assert "," + pid + "," + session == ("," + pid) + ("," + session);
    RSplitFirstUnique(s, ',', 2, path);
  }

  /**
   * The socket the script watches (screen_away.py:175-185): the STY name
   * joined to screen's socket directory; failing that, the TMUX value with
   * its last two fields removed; failing both, "".
   */
  function SocketPath(sty: Option<string>, screenLs: string, tmux: Option<string>): (sock: string)
    ensures sty.Some? && ScreenSocketDir(screenLs).Some? ==> sock != "" && EndsWith(sock, sty.value)
    ensures sty.None? && tmux.None? ==> sock == ""
  {
    var fromScreen :=
      if sty.Some? then
        match ScreenSocketDir(screenLs)
        case Some(dir) => PathJoin(dir, sty.value)
        case None => ""
      else "";
    if fromScreen == "" && tmux.Some? then TmuxSocket(tmux.value) else fromScreen
  }
}
