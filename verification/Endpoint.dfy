/** The expansion of %h and %B in the endpoints that boot_pmi.c binds to. */
module Endpoint {
  import opened Basics

  const ENDPOINT_MAX: nat := 2048

  /** What one character adds, after a percent sign or not; None if a lookup fails. */
  function Piece(c: char, flag: bool, ip: Option<string>, rundir: Option<string>): Option<string> {
    if flag then
      if c == 'h' then ip
      else if c == 'B' then rundir
      else if c == '%' then Some("%")
      else Some(['%', c])
    else if c == '%' then Some("")
    else Some([c])
  }

  function Flag(c: char, flag: bool): bool {
    !flag && c == '%'
  }

  /** A percent sign at the end is dropped. */
  function Expand(s: string, flag: bool, ip: Option<string>, rundir: Option<string>): Option<string> {
    if s == "" then Some("")
    else Join(Piece(s[0], flag, ip, rundir), Expand(s[1..], Flag(s[0], flag), ip, rundir))
  }

  function Join(x: Option<string>, y: Option<string>): Option<string> {
    if x.Some? && y.Some? then Some(x.value + y.value) else None
  }

  lemma JoinLaws(x: Option<string>, y: Option<string>, z: Option<string>)
    ensures Join(Some(""), x) == x == Join(x, Some(""))
    ensures Join(x, Join(y, z)) == Join(Join(x, y), z)
  {
    if x.Some? {
      assert "" + x.value == x.value == x.value + "";
      if y.Some? && z.Some? {
        assert x.value + (y.value + z.value) == (x.value + y.value) + z.value;
      }
    }
  }

  predicate CString(s: string) {
    '\0' !in s
  }

  predicate CStringOption(s: Option<string>) {
    s.Some? ==> CString(s.value)
  }

  /** The buffer holds text, and nothing but zeros after it. */
  ghost predicate Holds(buf: array<char>, text: string)
    reads buf
  {
    && |text| < buf.Length && CString(text) && buf[..|text|] == text
    && forall i | |text| <= i < buf.Length :: buf[i] == '\0'
  }

  /** Appends at the first zero and writes a zero at the end, as strcat does. */
  method StrCat(buf: array<char>, s: string, ghost text: string)
    requires Holds(buf, text) && |text| + |s| < buf.Length && CString(s)
    modifies buf
    ensures Holds(buf, text + s)
  {
    var n := 0;
    while buf[n] != '\0'
      invariant n <= |text|
      decreases |text| - n
    {
      assert buf[n] == '\0' || n < |text|;
      n := n + 1;
    }
    assert n == |text|;
    for k := 0 to |s|
      invariant buf[..n] == text
      invariant buf[n..n + k] == s[..k]
      invariant forall i | n + k <= i < buf.Length :: buf[i] == '\0'
    {
      buf[n + k] := s[k];
      assert buf[n..n + k + 1] == buf[n..n + k] + [s[k]];
    }
    buf[n + |s|] := '\0';
    assert buf[..n + |s|] == buf[..n] + buf[n..n + |s|];
  }

  method PutChar(buf: array<char>, len: nat, c: char, ghost text: string)
    requires Holds(buf, text) && len == |text| && len + 1 < buf.Length && c != '\0'
    modifies buf
    ensures Holds(buf, text + [c])
  {
    buf[len] := c;
    assert buf[..|text + [c]|] == text + [c];
  }

  /** Write what character c adds; not ok if a lookup fails or does not fit. */
  method PutPiece(buf: array<char>, len: nat, c: char, flag: bool,
                  ip: Option<string>, rundir: Option<string>, ghost text: string)
      returns (ok: bool, newLen: nat)
    requires Holds(buf, text) && len == |text| < ENDPOINT_MAX && buf.Length == ENDPOINT_MAX + 1
    requires c != '\0' && CStringOption(ip) && CStringOption(rundir)
    modifies buf
    ensures var p := Piece(c, flag, ip, rundir);
      && (ok ==> p.Some? && newLen == len + |p.value| && (newLen < ENDPOINT_MAX ==> Holds(buf, text + p.value)))
      && (!ok ==> p.None? || len + |p.value| > ENDPOINT_MAX)
  {
    ok, newLen := true, len;
    if flag {
      if c == 'h' {
        if ip.None? || len + |ip.value| > ENDPOINT_MAX {
          return false, len;
        }
        StrCat(buf, ip.value, text);
        newLen := len + |ip.value|;
      } else if c == 'B' {
        if rundir.None? || len + |rundir.value| > ENDPOINT_MAX {
          return false, len;
        }
        StrCat(buf, rundir.value, text);
        newLen := len + |rundir.value|;
      } else if c == '%' {
        PutChar(buf, len, '%', text);
        newLen := len + 1;
      } else {
        PutChar(buf, len, '%', text);
        buf[len + 1] := c;
        newLen := len + 2;
        assert newLen < ENDPOINT_MAX ==> buf[..newLen] == text + ['%', c];
      }
    } else {
      assert text + "" == text;
      if c != '%' {
        PutChar(buf, len, c, text);
        newLen := len + 1;
      }
    }
  }

  /** The expansion is returned if and only if every lookup it needs succeeds and it is
      shorter than ENDPOINT_MAX. */
  method FormatEndpoint(endpoint: string, ip: Option<string>, rundir: Option<string>) returns (rv: Option<string>)
    requires CString(endpoint) && CStringOption(ip) && CStringOption(rundir)
    ensures var e := Expand(endpoint, false, ip, rundir);
      rv == if e.Some? && |e.value| < ENDPOINT_MAX then e else None
  {
    var buf := new char[ENDPOINT_MAX + 1](_ => '\0');
    var flag, len, i := false, 0, 0;
    ghost var text := "";
    assert endpoint[0..] == endpoint;
    JoinLaws(Expand(endpoint, false, ip, rundir), None, None);
    while i < |endpoint|
      invariant i <= |endpoint| && len == |text| < ENDPOINT_MAX && Holds(buf, text)
      invariant Expand(endpoint, false, ip, rundir) == Join(Some(text), Expand(endpoint[i..], flag, ip, rundir))
    {
      var c := endpoint[i];
      ghost var piece := Piece(c, flag, ip, rundir);
      ghost var rest := Expand(endpoint[i + 1..], Flag(c, flag), ip, rundir);
      assert endpoint[i..][1..] == endpoint[i + 1..];
      var ok: bool;
      ok, len := PutPiece(buf, len, c, flag, ip, rundir, text);
      if !ok {
        return None;
      }
      JoinLaws(Some(text), piece, rest);
      text := text + piece.value;
      flag := !flag && c == '%';
      if len >= ENDPOINT_MAX {
        return None;
      }
      i := i + 1;
    }
    JoinLaws(Some(text), None, None);
    rv := Some(buf[..len]);
  }

  // ---------------------------------------------------------------- the expansion

  /** Whether the next character is escaped, once s has been read. */
  function FlagAfter(s: string, flag: bool): bool {
    if s == "" then flag else FlagAfter(s[1..], Flag(s[0], flag))
  }

  /** An endpoint can be expanded piece by piece. */
  lemma {:induction false} ExpandConcat(x: string, y: string, flag: bool, ip: Option<string>, rundir: Option<string>)
    ensures Expand(x + y, flag, ip, rundir)
         == Join(Expand(x, flag, ip, rundir), Expand(y, FlagAfter(x, flag), ip, rundir))
  {
    if x == "" {
      assert x + y == y;
      JoinLaws(Expand(y, flag, ip, rundir), None, None);
    } else {
      var f := Flag(x[0], flag);
      assert (x + y)[1..] == x[1..] + y;
      ExpandConcat(x[1..], y, f, ip, rundir);
      JoinLaws(Piece(x[0], flag, ip, rundir), Expand(x[1..], f, ip, rundir),
               Expand(y, FlagAfter(x[1..], f), ip, rundir));
    }
  }

  /** Every percent sign doubled. */
  function Escape(s: string): string {
    if s == "" then "" else (if s[0] == '%' then "%%" else [s[0]]) + Escape(s[1..])
  }

  /** A text with its percent signs doubled expands to itself, whatever the lookups say. */
  lemma {:induction false} EscapeExpands(s: string, ip: Option<string>, rundir: Option<string>)
    ensures Expand(Escape(s), false, ip, rundir) == Some(s)
  {
    if s != "" {
      EscapeExpands(s[1..], ip, rundir);
      var e := Escape(s);
      if s[0] == '%' {
        assert e[1..] == "%" + Escape(s[1..]);
        assert e[1..][1..] == Escape(s[1..]);
        assert Expand(e[1..], true, ip, rundir) == Join(Some("%"), Some(s[1..]));
        assert "%" + s[1..] == s;
        JoinLaws(Some(s), None, None);
      } else {
        assert e[1..] == Escape(s[1..]);
        assert [s[0]] + s[1..] == s;
      }
    }
  }

  /** How many percent signs a text ends with. */
  function Percents(s: string): nat {
    if s != "" && s[|s| - 1] == '%' then 1 + Percents(s[..|s| - 1]) else 0
  }

  lemma {:induction false} FlagSnoc(s: string, c: char, flag: bool)
    ensures FlagAfter(s + [c], flag) == Flag(c, FlagAfter(s, flag))
  {
    if s == "" {
      assert (s + [c])[1..] == "";
    } else {
      FlagSnoc(s[1..], c, Flag(s[0], flag));
      assert (s + [c])[1..] == s[1..] + [c];
    }
  }

  /** A percent sign escapes what follows unless it is escaped itself. */
  lemma {:induction false} FlagIsParity(s: string)
    ensures FlagAfter(s, false) <==> Percents(s) % 2 == 1
    decreases |s|
  {
    if s != "" {
      var n := |s| - 1;
      FlagIsParity(s[..n]);
      FlagSnoc(s[..n], s[n], false);
      assert s[..n] + [s[n]] == s;
    }
  }

  /** The expansion of a text x + mid + y, when nothing in x escapes the beginning of mid and
      nothing in mid the beginning of y. */
  lemma Around(x: string, mid: string, y: string, ip: Option<string>, rundir: Option<string>)
    requires Percents(x) % 2 == 0 && !FlagAfter(mid, false)
    ensures Expand(x + mid + y, false, ip, rundir)
         == Join(Expand(x, false, ip, rundir),
                 Join(Expand(mid, false, ip, rundir), Expand(y, false, ip, rundir)))
  {
    FlagIsParity(x);
    assert x + mid + y == x + (mid + y);
    ExpandConcat(x, mid + y, false, ip, rundir);
    ExpandConcat(mid, y, false, ip, rundir);
  }

  lemma OneChar(c: char, flag: bool, ip: Option<string>, rundir: Option<string>)
    ensures Expand([c], flag, ip, rundir) == Piece(c, flag, ip, rundir) && FlagAfter([c], flag) == Flag(c, flag)
  {
    assert [c][1..] == "";
    JoinLaws(Piece(c, flag, ip, rundir), None, None);
  }

  lemma Escaped(c: char, ip: Option<string>, rundir: Option<string>)
    ensures Expand(['%', c], false, ip, rundir) == Piece(c, true, ip, rundir) && !FlagAfter(['%', c], false)
  {
    OneChar('%', false, ip, rundir);
    OneChar(c, true, ip, rundir);
    assert ['%', c] == "%" + [c];
    ExpandConcat("%", [c], false, ip, rundir);
    FlagSnoc("%", c, false);
    JoinLaws(Piece(c, true, ip, rundir), None, None);
  }

  /** What the escapes stand for, with any text around them: %h for the address, %B for the
      broker's directory, a doubled percent sign for one, and any other escape for itself. */
  lemma EscapesMean(x: string, y: string, c: char, ip: Option<string>, rundir: Option<string>)
    requires Percents(x) % 2 == 0
    ensures var before, after := Expand(x, false, ip, rundir), Expand(y, false, ip, rundir);
      && Expand(x + "%h" + y, false, ip, rundir) == Join(before, Join(ip, after))
      && Expand(x + "%B" + y, false, ip, rundir) == Join(before, Join(rundir, after))
      && Expand(x + "%%" + y, false, ip, rundir) == Join(before, Join(Some("%"), after))
      && (c !in "hB%" ==> Expand(x + ['%', c] + y, false, ip, rundir) == Join(before, Join(Some(['%', c]), after)))
      && (c != '%' ==> Expand(x + [c] + y, false, ip, rundir) == Join(before, Join(Some([c]), after)))
  {
    Escaped('h', ip, rundir);
    Around(x, "%h", y, ip, rundir);
    Escaped('B', ip, rundir);
    Around(x, "%B", y, ip, rundir);
    Escaped('%', ip, rundir);
    Around(x, "%%", y, ip, rundir);
    Escaped(c, ip, rundir);
    Around(x, ['%', c], y, ip, rundir);
    if c != '%' {
      OneChar(c, false, ip, rundir);
      Around(x, [c], y, ip, rundir);
    }
  }

  /** A percent sign at the very end, not escaped itself, is dropped. */
  lemma DanglingDropped(x: string, ip: Option<string>, rundir: Option<string>)
    requires Percents(x) % 2 == 0
    ensures Expand(x + "%", false, ip, rundir) == Expand(x, false, ip, rundir)
  {
    FlagIsParity(x);
    ExpandConcat(x, "%", false, ip, rundir);
    OneChar('%', false, ip, rundir);
    JoinLaws(Expand(x, false, ip, rundir), None, None);
  }
}
