/** The method name a caller posts to `/methods`, normalised the way the
    handler does it with `replace(/\. |\s/g, "_")`, and the service and port
    keys derived from it for the lookup into the introspection result. */
module MethodNames {

  /** JavaScript's `\s` class: the ECMAScript WhiteSpace and LineTerminator
      code points (tab, line feed, vertical tab, form feed, carriage return,
      space, no-break space, the Unicode space separators, line and paragraph
      separator, and the byte order mark). */
  predicate IsWs(c: char) {
    var n := c as int;
    || (0x09 <= n <= 0x0D)
    || n == 0x20
    || n == 0xA0
    || n == 0x1680
    || (0x2000 <= n <= 0x200A)
    || n == 0x2028
    || n == 0x2029
    || n == 0x202F
    || n == 0x205F
    || n == 0x3000
    || n == 0xFEFF
  }

  predicate NoWhitespace(s: string) {
    forall i :: 0 <= i < |s| ==> !IsWs(s[i])
  }

  /** The global replacement, scanning left to right: at each position the
      alternative `". "` is tried first, then a single `\s` character; a match
      becomes one `_` and scanning resumes after it, any other character is
      copied. */
  function Normalize(s: string): (r: string)
    ensures |r| <= |s|
  {
    if |s| == 0 then ""
    else if |s| >= 2 && s[0] == '.' && s[1] == ' ' then "_" + Normalize(s[2..])
    else if IsWs(s[0]) then "_" + Normalize(s[1..])
    else [s[0]] + Normalize(s[1..])
  }

  /** No whitespace survives normalisation. */
  lemma {:induction false} NormalizeLeavesNoWhitespace(s: string)
    ensures NoWhitespace(Normalize(s))
    decreases |s|
  {
    if |s| > 0 {
      var tail := if |s| >= 2 && s[0] == '.' && s[1] == ' ' then s[2..] else s[1..];
      NormalizeLeavesNoWhitespace(tail);
      var r := Normalize(s);
      assert r[1..] == Normalize(tail);
      forall i | 0 <= i < |r| ensures !IsWs(r[i]) {
        if i > 0 { assert r[i] == Normalize(tail)[i - 1]; }
      }
    }
  }

  // ---------------------------------------------------------------------
  // What the replacement means: cut the name into matches and plain
  // characters, then write one character per piece.
  // ---------------------------------------------------------------------

  /** One piece of a name: a match of the alternative `". "`, a match of
      `\s`, or a character that no match covers. */
  datatype Piece = DotSpace | Blank(c: char) | Kept(c: char)

  function Text(p: Piece): string {
    match p
    case DotSpace => ". "
    case Blank(c) => [c]
    case Kept(c) => [c]
  }

  /** The character a piece is replaced by. */
  function Replacement(p: Piece): char {
    match p
    case Kept(c) => c
    case _ => '_'
  }

  predicate WellFormed(p: Piece) {
    match p
    case DotSpace => true
    case Blank(c) => IsWs(c)
    case Kept(c) => !IsWs(c)
  }

  function Join(ps: seq<Piece>): string {
    if ps == [] then "" else Text(ps[0]) + Join(ps[1..])
  }

  function Render(ps: seq<Piece>): (r: string)
    ensures |r| == |ps|
  {
    if ps == [] then "" else [Replacement(ps[0])] + Render(ps[1..])
  }

  /** `ps` cuts `s` into pieces the way a left-to-right regular-expression
      scan does: the pieces spell `s`, each is what it claims to be, and a
      kept `.` is never followed by a space matched on its own (the scan
      would have matched `". "` there instead). */
  ghost predicate IsScan(ps: seq<Piece>, s: string) {
    && Join(ps) == s
    && (forall i :: 0 <= i < |ps| ==> WellFormed(ps[i]))
    && (forall i :: 0 <= i < |ps| - 1 ==> !(ps[i] == Kept('.') && ps[i + 1] == Blank(' ')))
  }

  lemma {:induction false} RenderAt(ps: seq<Piece>, i: nat)
    requires i < |ps|
    ensures Render(ps)[i] == Replacement(ps[i])
  {
    if i > 0 {
      RenderAt(ps[1..], i - 1);
    }
  }

  lemma JoinHead(ps: seq<Piece>)
    requires ps != []
    ensures |Join(ps)| > 0 && Join(ps)[0] == Text(ps[0])[0]
  {
  }

  lemma ScanTail(ps: seq<Piece>, s: string)
    requires ps != [] && IsScan(ps, s)
    ensures IsScan(ps[1..], Join(ps[1..]))
    ensures s == Text(ps[0]) + Join(ps[1..])
  {
  }

  /** Whatever scan of `s` one takes, the normalised name is that scan with
      every match written as one `_` and every other character kept, in
      order. */
  lemma {:induction false} NormalizeIsRenderedScan(ps: seq<Piece>, s: string)
    requires IsScan(ps, s)
    ensures Normalize(s) == Render(ps)
  {
    if ps != [] {
      var rest := ps[1..];
      ScanTail(ps, s);
      NormalizeIsRenderedScan(rest, Join(rest));
      match ps[0]
      case DotSpace =>
        assert s[2..] == Join(rest);
      case Blank(c) =>
        assert s[1..] == Join(rest);
      case Kept(c) =>
        assert s[1..] == Join(rest);
        if c == '.' && |s| >= 2 && s[1] == ' ' {
          JoinHead(rest);
          assert false;
        }
    }
  }

  /** Every name has a scan: the regular expression always consumes the whole
      input, one match or one plain character at a time. */
  lemma {:induction false} ScanOf(s: string) returns (ps: seq<Piece>)
    ensures IsScan(ps, s)
    decreases |s|
  {
    if |s| == 0 {
      ps := [];
    } else {
      var head: Piece;
      var tail: string;
      if |s| >= 2 && s[0] == '.' && s[1] == ' ' {
        head, tail := DotSpace, s[2..];
      } else if IsWs(s[0]) {
        head, tail := Blank(s[0]), s[1..];
      } else {
        head, tail := Kept(s[0]), s[1..];
      }
      var rest := ScanOf(tail);
      ps := [head] + rest;
      assert ps[1..] == rest;
      assert Text(head) + tail == s;
      forall i | 0 <= i < |ps| ensures WellFormed(ps[i]) {
        if i > 0 { assert ps[i] == rest[i - 1]; }
      }
      forall i | 0 <= i < |ps| - 1 ensures !(ps[i] == Kept('.') && ps[i + 1] == Blank(' ')) {
        if i > 0 {
          assert ps[i] == rest[i - 1] && ps[i + 1] == rest[i];
        } else if head == Kept('.') {
          JoinHead(rest);
        }
      }
    }
  }

  /** The piece a scan must start with: `". "` is tried first, then a
      single `\s` character, and otherwise the character is kept. */
  function FirstPiece(s: string): Piece
    requires |s| > 0
  {
    if |s| >= 2 && s[0] == '.' && s[1] == ' ' then DotSpace
    else if IsWs(s[0]) then Blank(s[0])
    else Kept(s[0])
  }

  lemma ScanHead(ps: seq<Piece>, s: string)
    requires ps != [] && IsScan(ps, s)
    ensures |s| > 0 && ps[0] == FirstPiece(s)
  {
    ScanTail(ps, s);
    JoinHead(ps);
    var rest := ps[1..];
    match ps[0]
    case DotSpace =>
    case Blank(c) =>
    case Kept(c) =>
      if c == '.' && |s| >= 2 && s[1] == ' ' {
        JoinHead(rest);
        assert false;
      }
  }

  /** A name has only one scan, so the scan above is the one the regular
      expression performs. */
  lemma {:induction false} ScanUnique(p1: seq<Piece>, p2: seq<Piece>, s: string)
    requires IsScan(p1, s) && IsScan(p2, s)
    ensures p1 == p2
    decreases |p1|
  {
    if p1 == [] || p2 == [] {
      if p1 != [] { JoinHead(p1); }
      if p2 != [] { JoinHead(p2); }
    } else {
      ScanHead(p1, s);
      ScanHead(p2, s);
      ScanTail(p1, s);
      ScanTail(p2, s);
      var t := s[|Text(p1[0])|..];
      assert Join(p1[1..]) == t && Join(p2[1..]) == t;
      ScanUnique(p1[1..], p2[1..], t);
      assert p1 == [p1[0]] + p1[1..] && p2 == [p2[0]] + p2[1..];
    }
  }

  /** A name that holds no whitespace is left exactly as it is (`". "`
      contains a space, so it cannot match either). */
  lemma {:induction false} NormalizeKeepsClean(s: string)
    requires NoWhitespace(s)
    ensures Normalize(s) == s
  {
    if |s| > 0 {
      assert !IsWs(s[0]);
      assert |s| >= 2 ==> s[1] != ' ' by { assert |s| >= 2 ==> !IsWs(s[1]); }
      assert NoWhitespace(s[1..]) by {
        forall i | 0 <= i < |s[1..]| ensures !IsWs(s[1..][i]) { assert s[1..][i] == s[i + 1]; }
      }
      NormalizeKeepsClean(s[1..]);
    }
  }

  lemma NormalizeIdempotent(s: string)
    ensures Normalize(Normalize(s)) == Normalize(s)
  {
    NormalizeLeavesNoWhitespace(s);
    NormalizeKeepsClean(Normalize(s));
  }

  lemma NormalizeLeadingBlank(c: char, t: string)
    requires IsWs(c)
    ensures Normalize([c] + t) == "_" + Normalize(t)
  {
    assert ([c] + t)[1..] == t;
  }

  lemma NormalizeLeadingDotSpace(t: string)
    ensures Normalize(". " + t) == "_" + Normalize(t)
  {
    assert (". " + t)[2..] == t;
  }

  lemma ConcatAssoc(x: string, y: string, z: string)
    ensures x + y + z == x + (y + z)
  {
  }

  /** Normalisation works piece by piece, except across a `.` that ends the
      first part when a space starts the second (the pair would then match
      as `". "`). */
  lemma {:induction false} NormalizeAppend(a: string, b: string)
    requires !(|a| > 0 && a[|a| - 1] == '.' && |b| > 0 && b[0] == ' ')
    ensures Normalize(a + b) == Normalize(a) + Normalize(b)
    decreases |a|
  {
    if |a| == 0 {
      assert a + b == b;
    } else if |a| >= 2 && a[0] == '.' && a[1] == ' ' {
      var rest := a[2..];
      assert (a + b)[2..] == rest + b;
      NormalizeAppend(rest, b);
      assert Normalize(a) == "_" + Normalize(rest);
      assert Normalize(a + b) == "_" + Normalize(rest + b);
      ConcatAssoc("_", Normalize(rest), Normalize(b));
    } else {
      var rest := a[1..];
      var h := if IsWs(a[0]) then "_" else [a[0]];
      assert (a + b)[1..] == rest + b;
      assert (a + b)[0] == a[0];
      assert !(|a + b| >= 2 && (a + b)[0] == '.' && (a + b)[1] == ' ');
      NormalizeAppend(rest, b);
      assert Normalize(a) == h + Normalize(rest);
      assert Normalize(a + b) == h + Normalize(rest + b);
      ConcatAssoc(h, Normalize(rest), Normalize(b));
    }
  }

  /** A clean prefix is copied, and the rest is normalised on its own. */
  lemma NormalizeCleanPrefix(a: string, t: string)
    requires NoWhitespace(a)
    requires !(|a| > 0 && a[|a| - 1] == '.' && |t| > 0 && t[0] == ' ')
    ensures Normalize(a + t) == a + Normalize(t)
  {
    NormalizeKeepsClean(a);
    NormalizeAppend(a, t);
  }

  /** Two whitespace-free words joined by `". "` come out joined by one `_`
      ("Sales. Order" becomes "Sales_Order"). */
  lemma NormalizeDotSpaceJoined(a: string, b: string)
    requires NoWhitespace(a) && NoWhitespace(b)
    ensures Normalize(a + ". " + b) == a + "_" + b
  {
    ConcatAssoc(a, ". ", b);
    NormalizeCleanPrefix(a, ". " + b);
    NormalizeLeadingDotSpace(b);
    NormalizeKeepsClean(b);
    ConcatAssoc(a, "_", b);
  }

  /** Two whitespace-free words joined by a space come out joined by one `_`
      ("Get Customers" becomes "Get_Customers"), unless the first ends in
      `.`, where the dot and the space match together. */
  lemma NormalizeSpaceJoined(a: string, b: string)
    requires NoWhitespace(a) && NoWhitespace(b) && (|a| == 0 || a[|a| - 1] != '.')
    ensures Normalize(a + " " + b) == a + "_" + b
  {
    ConcatAssoc(a, " ", b);
    NormalizeCleanPrefix(a, " " + b);
    NormalizeLeadingBlank(' ', b);
    NormalizeKeepsClean(b);
    ConcatAssoc(a, "_", b);
  }

  /** A run of whitespace is not collapsed: two spaces between clean words
      give two underscores. */
  lemma NormalizeSpaceRun(a: string, b: string)
    requires NoWhitespace(a) && NoWhitespace(b) && (|a| == 0 || a[|a| - 1] != '.')
    ensures Normalize(a + "  " + b) == a + "__" + b
  {
    ConcatAssoc(a, "  ", b);
    ConcatAssoc(" ", " ", b);
    NormalizeCleanPrefix(a, "  " + b);
    NormalizeLeadingBlank(' ', " " + b);
    NormalizeLeadingBlank(' ', b);
    NormalizeKeepsClean(b);
    ConcatAssoc("_", "_", b);
    ConcatAssoc(a, "__", b);
  }

  // ---------------------------------------------------------------------
  // `String.prototype.includes` and the two lookup keys
  // ---------------------------------------------------------------------

  ghost predicate OccursAt(s: string, sub: string, i: int) {
    0 <= i <= |s| && sub <= s[i..]
  }

  /** `s.includes(sub)`. */
  function Includes(s: string, sub: string): bool
    decreases |s|
  {
    if sub <= s then true
    else if |s| == 0 then false
    else Includes(s[1..], sub)
  }

  lemma {:induction false} IncludesMeansOccurs(s: string, sub: string)
    ensures Includes(s, sub) <==> exists i :: OccursAt(s, sub, i)
    decreases |s|
  {
    if sub <= s {
      assert OccursAt(s, sub, 0);
    } else if |s| == 0 {
      forall i | OccursAt(s, sub, i) ensures false {
      }
    } else {
      IncludesMeansOccurs(s[1..], sub);
      if Includes(s[1..], sub) {
        var i :| OccursAt(s[1..], sub, i);
        assert s[1..][i..] == s[i + 1..];
        assert OccursAt(s, sub, i + 1);
      } else {
        forall i | OccursAt(s, sub, i) ensures false {
          assert i != 0 by { assert s[0..] == s; }
          assert s[1..][i - 1..] == s[i..];
          assert OccursAt(s[1..], sub, i - 1);
        }
      }
    }
  }

  const PageMarker: string := "/Page/"

  /** The key of the port table: the normalised name and `_Port`. */
  function PortKey(methodName: string): string {
    Normalize(methodName) + "_Port"
  }

  /** The key of the service table: the normalised name, with `_Service`
      appended when the SOAP URL contains `/Page/`. */
  function ServiceKey(soapUrl: string, methodName: string): string {
    if Includes(soapUrl, PageMarker) then Normalize(methodName) + "_Service" else Normalize(methodName)
  }

  /** The service key carries the `_Service` suffix exactly when `/Page/`
      occurs somewhere in the SOAP URL, and is the bare normalised name
      exactly when it does not. */
  lemma ServiceKeyRule(soapUrl: string, methodName: string)
    ensures ServiceKey(soapUrl, methodName) == Normalize(methodName) + "_Service"
            <==> exists i :: OccursAt(soapUrl, PageMarker, i)
    ensures ServiceKey(soapUrl, methodName) == Normalize(methodName)
            <==> !exists i :: OccursAt(soapUrl, PageMarker, i)
  {
    IncludesMeansOccurs(soapUrl, PageMarker);
    var n := Normalize(methodName);
    assert |n + "_Service"| != |n|;
  }

  /** Both keys are free of whitespace, and the port key is never the service
      key, so the two lookups always read different levels by different names. */
  lemma KeysShape(soapUrl: string, methodName: string)
    ensures NoWhitespace(PortKey(methodName)) && NoWhitespace(ServiceKey(soapUrl, methodName))
    ensures PortKey(methodName) != ServiceKey(soapUrl, methodName)
    ensures |PortKey(methodName)| <= |methodName| + 5
  {
    NormalizeLeavesNoWhitespace(methodName);
    var n := Normalize(methodName);
    var p := n + "_Port";
    forall i | 0 <= i < |p| ensures !IsWs(p[i]) {
      if i >= |n| { assert p[i] == "_Port"[i - |n|]; }
    }
    var t := n + "_Service";
    forall i | 0 <= i < |t| ensures !IsWs(t[i]) {
      if i >= |n| { assert t[i] == "_Service"[i - |n|]; }
    }
    if Includes(soapUrl, PageMarker) {
      assert p[|n| + 1] == 'P' && t[|n| + 1] == 'S';
    }
  }

  /** The keys for a two-word method name: the port key, and the service key
      for a SOAP URL with a `/Page/` segment. */
  lemma TwoWordKeys(a: string, b: string, before: string, after: string)
    requires NoWhitespace(a) && NoWhitespace(b) && (|a| == 0 || a[|a| - 1] != '.')
    ensures PortKey(a + " " + b) == a + "_" + b + "_Port"
    ensures ServiceKey(before + PageMarker + after, a + " " + b) == a + "_" + b + "_Service"
  {
    NormalizeSpaceJoined(a, b);
    var url := before + PageMarker + after;
    assert url[|before|..] == PageMarker + after;
    assert OccursAt(url, PageMarker, |before|);
    IncludesMeansOccurs(url, PageMarker);
  }
}
