/**
 * The providerID text that links a MaasMachine to its MAAS machine: one printer
 * (pkg/maas/scope/machine.go) and three parsers that must agree about it
 * (pkg/util/machine.go, controllers/vmevacuation_controller.go, lxd-initializer).
 */
module ProviderIds {
  import opened Base

  /** SetProviderID: maas:///<zone>/<system id>. */
  function Print(zone: string, systemId: string): string {
    "maas:///" + zone + "/" + systemId
  }

  /** strings.Split(s, "/"). */
  function Split(s: string): (parts: seq<string>)
    ensures |parts| >= 1
    ensures |parts| == 1 <==> '/' !in s
  {
    if s == "" then [""]
    else if s[0] == '/' then [""] + Split(s[1..])
    else var rest := Split(s[1..]); [[s[0]] + rest[0]] + rest[1..]
  }

  /** VEC's extractSystemIDFromProviderID. */
  function ExtractSystemID(providerId: string): string {
    var parts := Split(providerId);
    if |parts| < 2 then "" else parts[|parts| - 1]
  }

  /** strings.LastIndex(s, "/"), -1 when there is no slash. */
  function LastSlash(s: string): (i: int)
    ensures -1 <= i < |s|
    ensures i >= 0 ==> s[i] == '/'
    ensures forall j :: i < j < |s| ==> s[j] != '/'
  {
    if s == "" then -1
    else if s[|s| - 1] == '/' then |s| - 1
    else LastSlash(s[..|s| - 1])
  }

  function FirstColon(s: string): (i: nat)
    ensures i <= |s|
    ensures i < |s| ==> s[i] == ':'
    ensures forall j :: 0 <= j < i ==> s[j] != ':'
  {
    if s == "" || s[0] == ':' then 0 else 1 + FirstColon(s[1..])
  }

  /** The regular expression ^[^:]+://.*[^/]$ ('.' matches anything but a newline). */
  predicate WellFormed(id: string) {
    var i := FirstColon(id);
    && 1 <= i && i + 3 < |id|
    && id[i..i + 3] == "://"
    && id[|id| - 1] != '/'
    && (forall j :: i + 3 <= j < |id| - 1 ==> id[j] != '\n')
  }

  datatype ProviderID = ProviderID(original: string, cloudProvider: string, id: string)

  /** NewProviderID: None stands for ErrEmptyProviderID and ErrInvalidProviderID. */
  function Parse(id: string): Option<ProviderID> {
    if id == "" || !WellFormed(id) then None
    else
      var p := ProviderID(id, id[..FirstColon(id)], id[LastSlash(id) + 1..]);
      if p.cloudProvider != "" && p.id != "" then Some(p) else None
  }

  /** GetInstanceID, with the nil that a malformed providerID yields read as "". */
  function InstanceId(providerId: Option<string>): string {
    match Parse(Text(providerId))
    case Some(p) => p.id
    case None => ""
  }

  lemma NoProviderIdNoInstance(providerId: Option<string>)
    ensures Text(providerId) == "" ==> InstanceId(providerId) == ""
  {
  }

  /** The initializer's parser: the right scheme, four parts, a non-empty last one. */
  function InitializerParse(providerId: string): Option<string> {
    if !("maas:///" <= providerId) then None
    else
      var parts := Split(providerId);
      if |parts| < 4 then None
      else if parts[|parts| - 1] == "" then None
      else Some(parts[|parts| - 1])
  }

  function LastOf(parts: seq<string>): string
    requires parts != []
  {
    parts[|parts| - 1]
  }

  lemma SplitUnfolds(c: char, t: string, rest: seq<string>)
    requires rest == Split(t)
    ensures Split([c] + t) == if c == '/' then [""] + rest else [[c] + rest[0]] + rest[1..]
  {
    assert ([c] + t)[1..] == t;
  }

  lemma LastOfSplit(c: char, t: string)
    ensures LastOf(Split([c] + t)) ==
      if c != '/' && LastSlash(t) < 0 then [c] + LastOf(Split(t)) else LastOf(Split(t))
  {
    hide Split, LastSlash;
    SplitUnfolds(c, t, Split(t));
    assert LastSlash(t) < 0 <==> '/' !in t by { if LastSlash(t) >= 0 { assert t[LastSlash(t)] == '/'; } }
  }

  /** p is the rest of s after position k. */
  ghost predicate Follows(s: string, k: int, p: string) {
    -1 <= k && |p| == |s| - k - 1 && forall j :: 0 <= j < |p| ==> p[j] == s[k + 1 + j]
  }

  lemma FollowsIsSlice(s: string, k: int, p: string)
    requires -1 <= k < |s| && Follows(s, k, p)
    ensures p == s[k + 1..]
  {
  }

  lemma FollowsAfterHead(c: char, t: string, l: int, p: string)
    requires Follows(t, l, p)
    ensures Follows([c] + t, l + 1, p)
    ensures l == -1 ==> Follows([c] + t, -1, [c] + p)
  {
  }

  /** The last part of a split is what follows the last slash. */
  lemma LastPart(s: string)
    ensures LastOf(Split(s)) == s[LastSlash(s) + 1..]
  {
    hide Split, LastSlash, LastOf, Follows;
    LastPartFollows(s);
    FollowsIsSlice(s, LastSlash(s), LastOf(Split(s)));
  }

  lemma {:induction false} LastPartFollows(s: string)
    ensures Follows(s, LastSlash(s), LastOf(Split(s)))
    decreases |s|
  {
    hide Split, LastSlash, LastOf, Follows;
    if s == "" {
      LastPartOfNothing();
    } else {
      var c, t := s[0], s[1..];
      LastPartFollows(t);
      LastOfSplit(c, t);
      SlashAfterHead(c, t);
      FollowsAfterHead(c, t, LastSlash(t), LastOf(Split(t)));
      assert s == [c] + t;
    }
  }

  lemma LastPartOfNothing()
    ensures Follows("", LastSlash(""), LastOf(Split("")))
  {
  }

  lemma SlashAfterHead(c: char, t: string)
    ensures LastSlash([c] + t) == if LastSlash(t) >= 0 then LastSlash(t) + 1 else if c == '/' then 0 else -1
  {
    hide LastSlash;
    var s := [c] + t;
    assert s[0] == c && forall j :: 1 <= j < |s| ==> s[j] == t[j - 1];
    assert LastSlash(t) >= 0 ==> s[LastSlash(t) + 1] == '/';
    assert LastSlash(s) >= 1 ==> t[LastSlash(s) - 1] == '/';
  }

  /** Every string all three parsers accept gets the same system ID from each of them. */
  lemma ParsersAgree(s: string)
    requires Parse(s).Some? && ExtractSystemID(s) != "" && InitializerParse(s).Some?
    ensures Parse(s).value.id == ExtractSystemID(s) == InitializerParse(s).value
  {
    hide Split, LastSlash, FirstColon, WellFormed;
    LastPart(s);
  }

  /** NewProviderID accepts less than VEC's extractor does, and never disagrees with it. */
  lemma ParseImpliesExtract(s: string)
    requires Parse(s).Some?
    ensures ExtractSystemID(s) == Parse(s).value.id != ""
  {
    hide Split, LastSlash, FirstColon, WellFormed;
    LastPart(s);
    WellFormedHasSlash(s);
  }

  lemma WellFormedHasSlash(s: string)
    requires WellFormed(s)
    ensures '/' in s
  {
    hide FirstColon;
    var i := FirstColon(s);
    assert s[i + 1] == s[i..i + 3][1] == '/';
  }

  lemma {:induction false} LastSlashOfPrint(head: string, id: string)
    requires '/' !in id
    ensures LastSlash(head + "/" + id) == |head|
  {
    var s := head + "/" + id;
    var k := LastSlash(s);
    assert s[|head|] == '/';
    assert forall j :: |head| < j < |s| ==> s[j] == id[j - |head| - 1];
  }

  /** What a printed providerID looks like, position by position. */
  ghost predicate Printed(s: string, zone: string, id: string) {
    && |s| == 9 + |zone| + |id|
    && FirstColon(s) == 4 && s[..4] == "maas" && s[4..7] == "://" && s[7] == '/'
    && (forall j :: 8 <= j < 8 + |zone| ==> s[j] == zone[j - 8])
    && s[8 + |zone|] == '/'
    && (forall j :: 9 + |zone| <= j < |s| ==> s[j] == id[j - 9 - |zone|])
  }

  lemma PrintShape(zone: string, id: string)
    requires id != "" && '/' !in id
    ensures var s := Print(zone, id); Printed(s, zone, id) && "maas:///" <= s && |Split(s)| >= 4
    ensures var s := Print(zone, id); s[LastSlash(s) + 1..] == id
  {
    hide Split, LastSlash, FirstColon, Printed;
    var scheme := "maas:///";
    assert Print(zone, id) == scheme + zone + "/" + id;
    assert |Split(scheme)| == 4 by { SplitScheme(); }
    PartsOfPrint(scheme, zone, id);
    LastSlashOfPrint(scheme + zone, id);
    assert scheme[..4] == "maas" && scheme[4..7] == "://";
    PositionsOfPrint(scheme, zone, id, scheme + zone + "/" + id);
  }

  lemma PartsOfPrint(scheme: string, zone: string, id: string)
    requires |Split(scheme)| == 4
    ensures |Split(scheme + zone + "/" + id)| >= 4 && scheme <= scheme + zone + "/" + id
  {
    hide Split;
    var rest := zone + "/" + id;
    assert scheme + zone + "/" + id == scheme + rest;
    SplitConcat(scheme, rest);
  }

  lemma PositionsOfPrint(scheme: string, zone: string, id: string, s: string)
    requires |scheme| == 8 && scheme[..4] == "maas" && scheme[4..7] == "://" && scheme[7] == '/'
    requires s == scheme + zone + "/" + id
    ensures Printed(s, zone, id)
  {
    assert s[..4] == scheme[..4] && s[4..7] == scheme[4..7];
    assert s[4] == scheme[4..7][0] == ':';
    forall j | 0 <= j < 4 ensures s[j] != ':' {
      assert s[j] == scheme[..4][j];
    }
  }

  /**
   * Printing and parsing back: for a slash-free, non-empty ID the round trip succeeds exactly when no
   * newline stands in the zone or before the last character of the ID.
   */
  lemma RoundTrip(zone: string, id: string)
    requires id != "" && '/' !in id
    ensures Parse(Print(zone, id)).Some? <==> '\n' !in zone && '\n' !in id[..|id| - 1]
    ensures Parse(Print(zone, id)).Some? ==> Parse(Print(zone, id)).value == ProviderID(Print(zone, id), "maas", id)
    ensures ExtractSystemID(Print(zone, id)) == id
    ensures InitializerParse(Print(zone, id)) == Some(id)
  {
    hide Split, LastSlash, WellFormed, Print;
    PrintShape(zone, id);
    LastPart(Print(zone, id));
    PrintedNewlines(Print(zone, id), zone, id);
    SchemeOfPrint(Print(zone, id), zone, id);
  }

  lemma SchemeOfPrint(s: string, zone: string, id: string)
    requires Printed(s, zone, id)
    ensures s != "" && s[..FirstColon(s)] == "maas" && "maas" != ""
  {
    hide FirstColon;
  }

  /** Well-formedness of a printed providerID is all about newlines. */
  lemma PrintedNewlines(s: string, zone: string, id: string)
    requires id != "" && '/' !in id && Printed(s, zone, id)
    ensures WellFormed(s) <==> '\n' !in zone && '\n' !in id[..|id| - 1]
  {
    var init := id[..|id| - 1];
    assert s[|s| - 1] == id[|id| - 1] != '/';
    assert forall j :: 0 <= j < |init| ==> s[9 + |zone| + j] == init[j];
    assert forall j :: 0 <= j < |zone| ==> s[8 + j] == zone[j];
    if '\n' in zone {
      var j :| 0 <= j < |zone| && zone[j] == '\n';
      assert s[8 + j] == '\n';
    } else if '\n' in init {
      var j :| 0 <= j < |init| && init[j] == '\n';
      assert s[9 + |zone| + j] == '\n';
    } else {
      forall j | 7 <= j < |s| - 1 ensures s[j] != '\n' {
        if 8 <= j < 8 + |zone| {
          assert zone[j - 8] in zone;
        } else if j >= 9 + |zone| {
          assert init[j - 9 - |zone|] in init;
        }
      }
    }
  }

  lemma {:induction false} SplitConcat(a: string, b: string)
    ensures |Split(a + b)| == |Split(a)| + |Split(b)| - 1
  {
    if a == "" {
      assert a + b == b;
    } else {
      assert (a + b)[0] == a[0] && (a + b)[1..] == a[1..] + b;
      SplitConcat(a[1..], b);
    }
  }

  /** maas:/// alone already contributes three slashes, hence four parts. */
  lemma SplitScheme()
    ensures |Split("maas:///")| == 4
  {
    hide Split;
    SplitConcat("maas:", "///");
    assert "maas:///" == "maas:" + "///";
    SplitConcat("/", "//");
    assert "///" == "/" + "//";
    SplitConcat("/", "/");
    assert "//" == "/" + "/";
    OneSlash();
    assert '/' !in "maas:";
  }

  lemma OneSlash()
    ensures |Split("/")| == 2
  {
    assert "/"[1..] == "" && |Split("")| == 1;
  }
}
