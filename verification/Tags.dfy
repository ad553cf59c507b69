/** Tag names, tag parsing and the MAAS-safe token (pkg/maas/maintenance/tags.go). */
module Tags {
  import opened Base

  const HOST_MAINTENANCE: string := "maas-lxd-host-maintenance"
  const HOST_NO_SCHEDULE: string := "maas-lxd-host-noschedule"
  const HOST_OP_PREFIX: string := "maas-lxd-hcp-op-"
  const VM_CONTROL_PLANE: string := "maas-lxd-wlc-cp"
  const VM_CLUSTER_PREFIX: string := "maas-lxd-wlc-"
  const VM_READY_OP_PREFIX: string := "maas-lxd-ready-op-"

  function OpTag(opId: string): string { HOST_OP_PREFIX + opId }

  function ReadyOpTag(opId: string): string { VM_READY_OP_PREFIX + opId }

  function ClusterTag(clusterId: string): string { VM_CLUSTER_PREFIX + SanitizeID(clusterId) }

  predicate IsOpTag(tag: string) { HOST_OP_PREFIX <= tag }

  predicate IsMaintenanceTag(tag: string) { tag == HOST_MAINTENANCE || tag == HOST_NO_SCHEDULE }

  predicate HasMaintenanceTag(tags: seq<string>) {
    HOST_MAINTENANCE in tags || HOST_NO_SCHEDULE in tags
  }

  /** The operation ID VEC reads off a host: the LAST op-prefixed tag wins, even when it is a bare prefix. */
  function LastOpId(tags: seq<string>): string {
    if tags == [] then ""
    else if IsOpTag(tags[|tags| - 1]) then tags[|tags| - 1][|HOST_OP_PREFIX|..]
    else LastOpId(tags[..|tags| - 1])
  }

  /** A host counts as draining for VEC only when all three tags are on it. */
  predicate MarkedForEvacuation(tags: seq<string>) {
    HOST_MAINTENANCE in tags && HOST_NO_SCHEDULE in tags && LastOpId(tags) != ""
  }

  /** The first proper op tag, as ParseOpTag reads it. */
  function FirstOpId(tags: seq<string>): Option<string> {
    if tags == [] then None
    else if IsOpTag(tags[0]) && |tags[0]| > |HOST_OP_PREFIX| then Some(tags[0][|HOST_OP_PREFIX|..])
    else FirstOpId(tags[1..])
  }

  method ParseOpTag(tags: seq<string>) returns (opId: Option<string>)
    ensures opId == FirstOpId(tags)
    ensures opId.Some? <==> exists t :: t in tags && t != HOST_OP_PREFIX && IsOpTag(t)
    ensures opId.Some? ==> opId.value != "" && OpTag(opId.value) in tags
  {
    for i := 0 to |tags|
      invariant FirstOpId(tags) == FirstOpId(tags[i..])
      invariant forall j :: 0 <= j < i ==> !(IsOpTag(tags[j]) && tags[j] != HOST_OP_PREFIX)
    {
      assert tags[i..][1..] == tags[i + 1..];
      if IsOpTag(tags[i]) && |tags[i]| > |HOST_OP_PREFIX| {
        assert tags[i] == OpTag(tags[i][|HOST_OP_PREFIX|..]);
        return Some(tags[i][|HOST_OP_PREFIX|..]);
      }
    }
    return None;
  }

  /**
   * The two readers of an op tag disagree in general (first against last), but an operation ID
   * either of them reports is one that was written with OpTag.
   */
  lemma {:induction false} OpIdRoundTrip(tags: seq<string>, opId: string)
    requires opId != "" && OpTag(opId) in tags
    requires forall t :: t in tags && IsOpTag(t) ==> t == OpTag(opId)
    ensures LastOpId(tags) == opId && FirstOpId(tags) == Some(opId)
  {
    if IsOpTag(tags[0]) {
    } else {
      OpIdFirst(tags[1..], opId);
    }
    OpIdLast(tags, opId);
  }

  lemma {:induction false} OpIdFirst(tags: seq<string>, opId: string)
    requires opId != "" && OpTag(opId) in tags
    requires forall t :: t in tags && IsOpTag(t) ==> t == OpTag(opId)
    ensures FirstOpId(tags) == Some(opId)
  {
    if !IsOpTag(tags[0]) {
      OpIdFirst(tags[1..], opId);
    }
  }

  lemma {:induction false} OpIdLast(tags: seq<string>, opId: string)
    requires opId != "" && OpTag(opId) in tags
    requires forall t :: t in tags && IsOpTag(t) ==> t == OpTag(opId)
    ensures LastOpId(tags) == opId
  {
    var n := |tags| - 1;
    if !IsOpTag(tags[n]) {
      assert tags == tags[..n] + [tags[n]];
      OpIdLast(tags[..n], opId);
    }
  }

  /** No tag this provider puts on a VM can be mistaken for a host drain tag. */
  lemma VmTagsAreNotDrainTags(suffix: string)
    ensures !IsMaintenanceTag(VM_CONTROL_PLANE) && !IsOpTag(VM_CONTROL_PLANE)
    ensures !IsMaintenanceTag(VM_CLUSTER_PREFIX + suffix) && !IsOpTag(VM_CLUSTER_PREFIX + suffix)
    ensures !IsMaintenanceTag(ReadyOpTag(suffix)) && !IsOpTag(ReadyOpTag(suffix))
    ensures !IsMaintenanceTag(OpTag(suffix))
  {
    assert VM_CONTROL_PLANE[9] == 'w' && HOST_MAINTENANCE[9] == 'h' && HOST_NO_SCHEDULE[9] == 'h';
    assert HOST_OP_PREFIX[9] == 'h' && HOST_OP_PREFIX[10] == 'c' && HOST_MAINTENANCE[10] == 'o'
      && HOST_NO_SCHEDULE[10] == 'o';
    assert (VM_CLUSTER_PREFIX + suffix)[9] == 'w';
    assert ReadyOpTag(suffix)[9] == 'r';
    assert OpTag(suffix)[10] == 'c';
  }

  /** Adding a tag that is not a drain tag never changes whether a host is draining. */
  lemma AddingOtherTags(tags: seq<string>, tag: string)
    requires !IsMaintenanceTag(tag) && !IsOpTag(tag)
    ensures HasMaintenanceTag(AddTag(tags, tag)) <==> HasMaintenanceTag(tags)
    ensures LastOpId(AddTag(tags, tag)) == LastOpId(tags)
    ensures MarkedForEvacuation(AddTag(tags, tag)) <==> MarkedForEvacuation(tags)
  {
    if tag !in tags {
      assert (tags + [tag])[..|tags|] == tags;
    }
  }

  // ----- SanitizeID -----

  predicate Alnum(c: char) { 'a' <= c <= 'z' || '0' <= c <= '9' }

  predicate TokenChar(c: char) { 'a' <= c <= 'z' || '0' <= c <= '9' || c == '-' }

  /**
   * Go's lower-casing of one rune, exact wherever the result is a letter a-z: besides A-Z only
   * U+0130 and U+212A lower to an ASCII letter, and every other rune stays outside [a-z0-9].
   */
  function LowerRune(c: char): char {
    if 'A' <= c <= 'Z' then (c as int + 32) as char
    else if c == '\U{0130}' then 'i'
    else if c == '\U{212A}' then 'k'
    else c
  }

  function Lower(s: string): (r: string)
    ensures |r| == |s|
    ensures forall i :: 0 <= i < |s| ==> r[i] == LowerRune(s[i])
  {
    if s == "" then "" else [LowerRune(s[0])] + Lower(s[1..])
  }

  /** Keep [a-z0-9]; turn each maximal run of anything else into one '-'. */
  function Collapse(s: string, prevDash: bool): string {
    if s == "" then ""
    else if Alnum(s[0]) then [s[0]] + Collapse(s[1..], false)
    else if prevDash then Collapse(s[1..], true)
    else "-" + Collapse(s[1..], true)
  }

  function TrimLeft(s: string): string {
    if s != "" && s[0] == '-' then TrimLeft(s[1..]) else s
  }

  function TrimRight(s: string): string {
    if s != "" && s[|s| - 1] == '-' then TrimRight(s[..|s| - 1]) else s
  }

  function Trim(s: string): string { TrimRight(TrimLeft(s)) }

  function Cut(s: string): string {
    if |s| > 63 then TrimRight(s[..63]) else s
  }

  function SanitizeID(id: string): string {
    if id == "" then ""
    else
      var s := Cut(Trim(Collapse(Lower(id), false)));
      if s == "" then "x" else s
  }

  method ComputeSanitizeID(id: string) returns (r: string)
    ensures r == SanitizeID(id)
  {
    if id == "" {
      return id;
    }
    var lower := Lower(id);
    var b := "";
    var prevDash := false;
    for i := 0 to |lower|
      invariant b + Collapse(lower[i..], prevDash) == Collapse(lower, false)
    {
      assert lower[i..][1..] == lower[i + 1..];
      if Alnum(lower[i]) {
        b := b + [lower[i]];
        prevDash := false;
        continue;
      }
      if !prevDash {
        b := b + ['-'];
        prevDash := true;
      }
    }
    assert lower[|lower|..] == "" && b + "" == b;
    var s := Trim(b);
    if |s| > 63 {
      s := s[..63];
      s := TrimRight(s);
    }
    if s == "" {
      return "x";
    }
    return s;
  }

  /** What a MAAS tag token looks like. */
  ghost predicate NormalForm(s: string) {
    && 1 <= |s| <= 63
    && NoDoubledDash(s)
    && s[0] != '-' && s[|s| - 1] != '-'
  }

  ghost predicate NoDoubledDash(s: string) {
    && (forall i :: 0 <= i < |s| ==> TokenChar(s[i]))
    && (forall i :: 0 <= i < |s| - 1 ==> s[i] != '-' || s[i + 1] != '-')
  }

  lemma {:induction false} CollapseShape(s: string, prevDash: bool)
    ensures NoDoubledDash(Collapse(s, prevDash))
    ensures prevDash && Collapse(s, prevDash) != "" ==> Collapse(s, prevDash)[0] != '-'
    ensures Letters(Collapse(s, prevDash)) == Letters(s)
  {
    if s != "" {
      CollapseShape(s[1..], !Alnum(s[0]));
    }
  }

  /** The alphanumeric characters of a text, in order. */
  function Letters(s: string): string {
    if s == "" then "" else (if Alnum(s[0]) then [s[0]] else "") + Letters(s[1..])
  }

  lemma {:induction false} LettersConcat(a: string, b: string)
    ensures Letters(a + b) == Letters(a) + Letters(b)
  {
    hide Alnum;
    if a == "" {
      assert a + b == b;
    } else {
      assert (a + b)[0] == a[0];
      assert (a + b)[1..] == a[1..] + b;
      LettersConcat(a[1..], b);
    }
  }

  lemma {:induction false} TrimShape(s: string)
    requires NoDoubledDash(s)
    ensures NoDoubledDash(TrimLeft(s)) && Letters(TrimLeft(s)) == Letters(s)
    ensures TrimLeft(s) != "" ==> TrimLeft(s)[0] != '-'
    ensures |TrimLeft(s)| <= |s|
  {
    if s != "" && s[0] == '-' {
      TrimShape(s[1..]);
    }
  }

  lemma {:induction false} TrimRightShape(s: string)
    requires NoDoubledDash(s)
    ensures NoDoubledDash(TrimRight(s)) && Letters(TrimRight(s)) == Letters(s)
    ensures TrimRight(s) != "" ==> TrimRight(s)[|TrimRight(s)| - 1] != '-' && TrimRight(s)[0] == s[0]
    ensures s != "" && s[0] != '-' ==> TrimRight(s) != ""
    ensures |TrimRight(s)| <= |s|
  {
    var n := |s| - 1;
    if s != "" && s[n] == '-' {
      LettersConcat(s[..n], [s[n]]);
      assert s == s[..n] + [s[n]];
      TrimRightShape(s[..n]);
    }
  }

  /** Every non-empty identifier becomes a well-formed token. */
  lemma SanitizedIsNormalForm(id: string)
    requires id != ""
    ensures NormalForm(SanitizeID(id))
  {
    var c := Collapse(Lower(id), false);
    CollapseShape(Lower(id), false);
    TrimShape(c);
    TrimRightShape(TrimLeft(c));
    var t := Trim(c);
    if |t| > 63 {
      assert NoDoubledDash(t[..63]);
      TrimRightShape(t[..63]);
    }
  }

  lemma {:induction false} CollapseFixpoint(s: string, prevDash: bool)
    requires NoDoubledDash(s)
    requires prevDash && s != "" ==> s[0] != '-'
    ensures Collapse(s, prevDash) == s
  {
    if s != "" {
      CollapseFixpoint(s[1..], s[0] == '-');
    }
  }

  lemma LowerFixpoint(s: string)
    requires forall i :: 0 <= i < |s| ==> TokenChar(s[i])
    ensures Lower(s) == s
  {
    assert forall i :: 0 <= i < |s| ==> Lower(s)[i] == LowerRune(s[i]) == s[i];
  }

  /** Tokens that are already well formed come back unchanged, so sanitizing twice is sanitizing once. */
  lemma SanitizeFixpoint(s: string)
    requires NormalForm(s)
    ensures SanitizeID(s) == s
  {
    LowerFixpoint(s);
    CollapseFixpoint(s, false);
  }

  lemma SanitizeIdempotent(id: string)
    ensures SanitizeID(SanitizeID(id)) == SanitizeID(id)
  {
    if id != "" {
      SanitizedIsNormalForm(id);
      SanitizeFixpoint(SanitizeID(id));
    }
  }

  // ----- normalizeName of the LXD initializer, and how the two relate -----

  /** Unicode white space, as strings.TrimSpace removes it. */
  predicate IsSpace(c: char) {
    || '\t' <= c <= '\r'
    || c in {' ', '\U{0085}', '\U{00A0}', '\U{1680}', '\U{2028}', '\U{2029}', '\U{202F}', '\U{205F}', '\U{3000}'}
    || '\U{2000}' <= c <= '\U{200A}'
  }

  function SpaceLeft(s: string): string {
    if s != "" && IsSpace(s[0]) then SpaceLeft(s[1..]) else s
  }

  function TrimSpace(s: string): string {
    var l := SpaceLeft(s);
    SpaceRight(l)
  }

  function SpaceRight(s: string): string {
    if s != "" && IsSpace(s[|s| - 1]) then SpaceRight(s[..|s| - 1]) else s
  }

  function NormalizeName(s: string): string {
    Trim(Collapse(Lower(TrimSpace(s)), false))
  }

  method ComputeNormalizeName(name: string) returns (r: string)
    ensures r == NormalizeName(name)
  {
    var s := Lower(TrimSpace(name));
    if s == "" {
      return s;
    }
    var b := "";
    var prevDash := false;
    for i := 0 to |s|
      invariant b + Collapse(s[i..], prevDash) == Collapse(s, false)
    {
      assert s[i..][1..] == s[i + 1..];
      if Alnum(s[i]) {
        b := b + [s[i]];
        prevDash := false;
        continue;
      }
      if !prevDash {
        b := b + ['-'];
        prevDash := true;
      }
    }
    assert s[|s|..] == "" && b + "" == b;
    r := Trim(b);
  }

  lemma {:induction false} LeadingDash(s: string)
    ensures TrimLeft(Collapse(s, true)) == TrimLeft(Collapse(s, false))
  {
  }

  lemma {:induction false} CollapseSnoc(s: string, c: char, prevDash: bool)
    requires !Alnum(c)
    ensures Collapse(s + [c], prevDash) in {Collapse(s, prevDash), Collapse(s, prevDash) + "-"}
  {
    if s == "" {
      assert s + [c] == [c];
      assert [c][1..] == "" && Collapse([c][1..], true) == "" && "" + "-" == "-" + "" == "-";
    } else {
      assert (s + [c])[0] == s[0] && (s + [c])[1..] == s[1..] + [c];
      var dash := !Alnum(s[0]);
      CollapseSnoc(s[1..], c, dash);
      var head := if Alnum(s[0]) then [s[0]] else if prevDash then "" else "-";
      assert Collapse(s, prevDash) == head + Collapse(s[1..], dash);
      assert Collapse(s + [c], prevDash) == head + Collapse(s[1..] + [c], dash);
      assert head + (Collapse(s[1..], dash) + "-") == (head + Collapse(s[1..], dash)) + "-";
    }
  }

  lemma {:induction false} TrimDropsLastDash(x: string)
    ensures Trim(x + "-") == Trim(x)
  {
    if x == "" {
      assert x + "-" == "-";
      assert "-"[1..] == "";
    } else if x[0] == '-' {
      assert (x + "-")[1..] == x[1..] + "-";
      TrimDropsLastDash(x[1..]);
    } else {
      assert (x + "-")[..|x|] == x;
    }
  }

  lemma {:induction false} TrimSpaceIrrelevantLeft(s: string)
    ensures Trim(Collapse(Lower(SpaceLeft(s)), false)) == Trim(Collapse(Lower(s), false))
  {
    if s != "" && IsSpace(s[0]) {
      TrimSpaceIrrelevantLeft(s[1..]);
      assert Lower(s) == [LowerRune(s[0])] + Lower(s[1..]);
      assert Lower(s)[1..] == Lower(s[1..]);
      assert !Alnum(LowerRune(s[0]));
      LeadingDash(Lower(s[1..]));
      assert Collapse(Lower(s), false) == "-" + Collapse(Lower(s[1..]), true);
      assert ("-" + Collapse(Lower(s[1..]), true))[1..] == Collapse(Lower(s[1..]), true);
    }
  }

  lemma LowerSnoc(s: string, c: char)
    ensures Lower(s + [c]) == Lower(s) + [LowerRune(c)]
  {
    hide LowerRune;
  }

  lemma SpaceIsNotAlnum(c: char)
    requires IsSpace(c)
    ensures !Alnum(LowerRune(c))
  {
  }

  lemma {:induction false} TrimSpaceIrrelevantRight(s: string)
    ensures Trim(Collapse(Lower(SpaceRight(s)), false)) == Trim(Collapse(Lower(s), false))
  {
    hide Trim, Collapse, Lower, LowerRune, IsSpace, Alnum;
    var n := |s| - 1;
    if s != "" && IsSpace(s[n]) {
      TrimSpaceIrrelevantRight(s[..n]);
      assert s == s[..n] + [s[n]];
      LowerSnoc(s[..n], s[n]);
      SpaceIsNotAlnum(s[n]);
      CollapseSnoc(Lower(s[..n]), LowerRune(s[n]), false);
      TrimDropsLastDash(Collapse(Lower(s[..n]), false));
    }
  }

  /** The two normalizers agree up to the length cut and the "x" that replaces an empty token. */
  lemma SanitizeVersusNormalizeName(id: string)
    requires id != ""
    ensures var n := Cut(NormalizeName(id)); SanitizeID(id) == if n == "" then "x" else n
  {
    TrimSpaceIrrelevantRight(SpaceLeft(id));
    TrimSpaceIrrelevantLeft(id);
  }

  lemma PrefixNoDoubledDash(s: string, n: nat)
    requires NoDoubledDash(s) && n <= |s|
    ensures NoDoubledDash(s[..n])
  {
    hide TokenChar;
  }

  lemma CutKeepsPrefix(t: string)
    requires NoDoubledDash(t)
    ensures Letters(Cut(t)) <= Letters(t)
    ensures |t| <= 63 ==> Cut(t) == t
    ensures t != "" && t[0] != '-' ==> Cut(t) != ""
  {
    hide NoDoubledDash, Letters, TrimRight;
    if |t| > 63 {
      PrefixNoDoubledDash(t, 63);
      TrimRightShape(t[..63]);
      assert t == t[..63] + t[63..];
      LettersConcat(t[..63], t[63..]);
    }
  }

  lemma TrimKeepsLetters(c: string)
    requires NoDoubledDash(c)
    ensures NoDoubledDash(Trim(c)) && Letters(Trim(c)) == Letters(c)
    ensures Trim(c) != "" ==> Trim(c)[0] != '-'
  {
    hide NoDoubledDash, Letters, TrimLeft, TrimRight;
    TrimShape(c);
    TrimRightShape(TrimLeft(c));
  }

  /** No alphanumeric character is lost or reordered: only the 63-character cut can drop any. */
  lemma SanitizeKeepsLetters(id: string)
    requires id != "" && Letters(Lower(id)) != ""
    ensures Letters(NormalizeName(id)) == Letters(Lower(id))
    ensures Letters(SanitizeID(id)) <= Letters(Lower(id))
    ensures |NormalizeName(id)| <= 63 ==> Letters(SanitizeID(id)) == Letters(Lower(id))
  {
    hide NoDoubledDash, Letters, Lower, Collapse, Trim, Cut, SpaceLeft, SpaceRight;
    TrimSpaceIrrelevantRight(SpaceLeft(id));
    TrimSpaceIrrelevantLeft(id);
    var c := Collapse(Lower(id), false);
    CollapseShape(Lower(id), false);
    TrimKeepsLetters(c);
    NoLettersInNothing();
    CutKeepsPrefix(Trim(c));
  }

  lemma NoLettersInNothing()
    ensures Letters("") == ""
  {
  }

  /** The capital letters go to the small ones in order, and small letters, digits and dashes stay. */
  lemma LowerExactly(c: char)
    ensures 'A' <= c <= 'Z' ==> 'a' <= LowerRune(c) <= 'z' && LowerRune(c) as int - 'a' as int == c as int - 'A' as int
    ensures TokenChar(c) ==> LowerRune(c) == c
  {
  }

  /** ParseOpTag takes the first tag that names an operation, where VEC's scan takes the last. */
  lemma {:induction false} FirstOpIdExactly(tags: seq<string>, opId: string)
    requires opId != ""
    ensures FirstOpId(tags) == Some(opId) <==> exists k ::
      && 0 <= k < |tags| && tags[k] == HOST_OP_PREFIX + opId
      && forall j :: 0 <= j < k ==> !(HOST_OP_PREFIX <= tags[j]) || tags[j] == HOST_OP_PREFIX
  {
    if tags != [] {
      var rest := tags[1..];
      FirstOpIdExactly(rest, opId);
      assert forall j :: 0 <= j < |rest| ==> rest[j] == tags[j + 1];
      if IsOpTag(tags[0]) && tags[0] != HOST_OP_PREFIX {
        assert tags[0] == HOST_OP_PREFIX + tags[0][|HOST_OP_PREFIX|..];
        assert (HOST_OP_PREFIX + opId)[|HOST_OP_PREFIX|..] == opId;
      } else {
        assert HOST_OP_PREFIX + opId != tags[0] by { assert HOST_OP_PREFIX <= HOST_OP_PREFIX + opId; }
      }
    }
  }

  /** TrimSpace takes white space off both ends and nothing else. */
  lemma {:induction false} TrimSpaceExactly(s: string) returns (a: nat, b: nat)
    ensures a <= b <= |s| && TrimSpace(s) == s[a..b]
    ensures forall j :: 0 <= j < a || b <= j < |s| ==> IsSpace(s[j])
    ensures TrimSpace(s) != "" ==> !IsSpace(s[a]) && !IsSpace(s[b - 1])
  {
    hide IsSpace;
    a := SpacesLeft(s);
    var left := SpaceLeft(s);
    var n := SpacesRight(left);
    b := a + n;
    assert left == s[a..] && left[..n] == s[a..b];
    assert forall j :: b <= j < |s| ==> s[j] == left[j - a];
    assert n > 0 ==> left[0] == s[a] && left[n - 1] == s[b - 1];
  }

  lemma {:induction false} SpacesLeft(s: string) returns (a: nat)
    ensures a <= |s| && SpaceLeft(s) == s[a..]
    ensures forall j :: 0 <= j < a ==> IsSpace(s[j])
    ensures a < |s| ==> !IsSpace(s[a])
  {
    hide IsSpace;
    if s != "" && IsSpace(s[0]) {
      a := SpacesLeft(s[1..]);
      a := a + 1;
    } else {
      a := 0;
    }
  }

  lemma {:induction false} SpacesRight(s: string) returns (n: nat)
    ensures n <= |s| && SpaceRight(s) == s[..n]
    ensures forall j :: n <= j < |s| ==> IsSpace(s[j])
    ensures n > 0 ==> !IsSpace(s[n - 1])
  {
    hide IsSpace;
    if s != "" && IsSpace(s[|s| - 1]) {
      n := SpacesRight(s[..|s| - 1]);
    } else {
      n := |s|;
    }
  }
}
