/**
 * The resource-id parser of the marketplace notification webhook
 * (`parse_resource_id`). It matches an Azure Resource Manager id against
 *
 *   \/?subscriptions\/([0-9a-z-]+)\/resourceGroups\/([a-zA-Z0-9-_.()]+)
 *     (|\/providers\/Microsoft\.Solutions\/applications\/([a-zA-Z0-9-_.()]+))$
 *
 * with Python's `re.match`, and returns the three groups or raises
 * `ValueError("Could not parse resource id")`.
 */
module ResourceIdParser {
  import opened Wrappers

  /** The groups the pattern captures; `applicationName` is None when the empty alternative matched. */
  datatype ResourceId = ResourceId(subscriptionId: string, resourceGroup: string, applicationName: Option<string>)

  const SubscriptionsLiteral: string := "subscriptions/"
  const ResourceGroupsLiteral: string := "/resourceGroups/"
  const SolutionsNamespace: string := "Microsoft.Solutions"
  const ApplicationsLiteral: string := "/providers/" + SolutionsNamespace + "/applications/"
  const ParseErrorMessage: string := "Could not parse resource id"

  /** The class `[0-9a-z-]` of the subscription id. */
  predicate IsSubscriptionChar(c: char) {
    ('0' <= c <= '9') || ('a' <= c <= 'z') || c == '-'
  }

  /**
   * The class `[a-zA-Z0-9-_.()]` of resource-group and application names:
   * after the range `0-9` the `-` is a literal, so the class is letters,
   * digits and the five characters `- _ . ( )`.
   */
  predicate IsNameChar(c: char) {
    ('a' <= c <= 'z') || ('A' <= c <= 'Z') || ('0' <= c <= '9')
    || c == '-' || c == '_' || c == '.' || c == '(' || c == ')'
  }

  /** Every character of `s` is in the name class (`s` may be empty). */
  predicate AllNameChars(s: string) {
    forall i :: 0 <= i < |s| ==> IsNameChar(s[i])
  }

  /** `s` matches `[0-9a-z-]+`. */
  predicate IsSubscriptionId(s: string) {
    |s| > 0 && forall i :: 0 <= i < |s| ==> IsSubscriptionChar(s[i])
  }

  /** `s` matches `[a-zA-Z0-9-_.()]+`. */
  predicate IsName(s: string) {
    |s| > 0 && AllNameChars(s)
  }

  /** The groups are what a successful match can capture. */
  predicate Valid(id: ResourceId) {
    && IsSubscriptionId(id.subscriptionId)
    && IsName(id.resourceGroup)
    && (id.applicationName.Some? ==> IsName(id.applicationName.value))
  }

  /** The two character classes the pattern repeats with `+`. */
  datatype CharClass = SubscriptionClass | NameClass

  predicate InClass(cls: CharClass, c: char) {
    match cls
    case SubscriptionClass => IsSubscriptionChar(c)
    case NameClass => IsNameChar(c)
  }

  /** The optional provider suffix of an id: empty, or the applications path and the name. */
  function FormatSuffix(applicationName: Option<string>): string {
    match applicationName
    case None => ""
    case Some(name) => ApplicationsLiteral + name
  }

  /** What follows `subscriptions/` in the id with the given groups. */
  function FormatFromSubscription(id: ResourceId): string {
    id.subscriptionId + (ResourceGroupsLiteral + (id.resourceGroup + FormatSuffix(id.applicationName)))
  }

  /** The resource-id string with the given groups, with or without the optional leading `/`. */
  function Format(id: ResourceId, leadingSlash: bool): string {
    (if leadingSlash then "/" else "") + (SubscriptionsLiteral + FormatFromSubscription(id))
  }

  predicate HasLeadingSlash(s: string) {
    |s| > 0 && s[0] == '/'
  }

  /** How far a greedy `[...]+` run over the class `cls` reaches from the start of `s`. */
  function RunLength(cls: CharClass, s: string): (n: nat)
    ensures n <= |s|
    ensures forall i :: 0 <= i < n ==> InClass(cls, s[i])
    ensures n < |s| ==> !InClass(cls, s[n])
  {
    if s == [] || !InClass(cls, s[0]) then 0 else 1 + RunLength(cls, s[1..])
  }

  /** The part of the match after the resource group: `(|\/providers\/...\/applications\/(name))$`. */
  function ParseSuffix(tail: string): (r: Result<Option<string>>)
    ensures r.Err? ==> r.message == ParseErrorMessage
    ensures r.Ok? ==> tail == FormatSuffix(r.value) && (r.value.Some? ==> IsName(r.value.value))
  {
    if tail == [] then Ok(None)
    else if ApplicationsLiteral <= tail && IsName(tail[|ApplicationsLiteral|..]) then
      assert tail == ApplicationsLiteral + tail[|ApplicationsLiteral|..];
      Ok(Some(tail[|ApplicationsLiteral|..]))
    else Err(ParseErrorMessage)
  }

  /** The part of the match after `resourceGroups/`, given the subscription id already captured. */
  function ParseFromGroup(sub: string, s: string): (r: Result<ResourceId>)
    ensures r.Err? ==> r.message == ParseErrorMessage
    ensures r.Ok? ==>
      && r.value.subscriptionId == sub
      && IsName(r.value.resourceGroup)
      && (r.value.applicationName.Some? ==> IsName(r.value.applicationName.value))
      && s == r.value.resourceGroup + FormatSuffix(r.value.applicationName)
  {
    var m := RunLength(NameClass, s);
    if m == 0 then Err(ParseErrorMessage)
    else
      match ParseSuffix(s[m..])
      case Err(e) => Err(e)
      case Ok(name) =>
        assert s == s[..m] + s[m..];
        Ok(ResourceId(sub, s[..m], name))
  }

  /** The part of the match after `subscriptions/`. */
  function ParseFromSubscription(s: string): (r: Result<ResourceId>)
    ensures r.Err? ==> r.message == ParseErrorMessage
    ensures r.Ok? ==> Valid(r.value) && s == FormatFromSubscription(r.value)
  {
    var n := RunLength(SubscriptionClass, s);
    var rest := s[n..];
    if n == 0 || !(ResourceGroupsLiteral <= rest) then Err(ParseErrorMessage)
    else
      var r := ParseFromGroup(s[..n], rest[|ResourceGroupsLiteral|..]);
      assert s == s[..n] + rest;
      assert rest == ResourceGroupsLiteral + rest[|ResourceGroupsLiteral|..];
      r
  }

  /**
   * The match with `$` read as the end of the string. No group admits `/`, so
   * each greedy run is the only candidate and backtracking cannot change the
   * outcome; the optional leading `/` is consumed when present, since
   * "subscriptions" cannot start with `/`.
   */
  function ParseAnchored(t: string): (r: Result<ResourceId>)
    ensures r.Err? ==> r.message == ParseErrorMessage
    ensures r.Ok? ==> Valid(r.value) && t == Format(r.value, HasLeadingSlash(t))
  {
    var body := if HasLeadingSlash(t) then t[1..] else t;
    if !(SubscriptionsLiteral <= body) then Err(ParseErrorMessage)
    else
      var r := ParseFromSubscription(body[|SubscriptionsLiteral|..]);
      assert body == SubscriptionsLiteral + body[|SubscriptionsLiteral|..];
      assert t == (if HasLeadingSlash(t) then "/" else "") + body;
      r
  }

  /** Python's `$` also matches just before a newline that ends the string. */
  function DropFinalNewline(s: string): (r: string)
  {
    if |s| > 0 && s[|s| - 1] == '\n' then s[..|s| - 1] else s
  }

  /**
   * `parse_resource_id`: the groups of the match, or the ValueError's message.
   * A success means the input is the formatted id, possibly followed by one `\n`.
   */
  function ParseResourceId(s: string): (r: Result<ResourceId>)
    ensures r.Err? ==> r.message == ParseErrorMessage
    ensures r.Ok? ==>
      && Valid(r.value)
      && (s == Format(r.value, HasLeadingSlash(s)) || s == Format(r.value, HasLeadingSlash(s)) + "\n")
  {
    var t := DropFinalNewline(s);
    assert s == t || s == t + "\n";
    assert |t| > 0 ==> t[0] == s[0];
    ParseAnchored(t)
  }

  // ---------------------------------------------------------------------------
  // Lemmas about the parser
  // ---------------------------------------------------------------------------

  /** A greedy run over `a + b` stops exactly at the end of `a` when `a` is all in the class and `b` is not. */
  lemma RunLengthOfRun(cls: CharClass, a: string, b: string)
    requires forall i :: 0 <= i < |a| ==> InClass(cls, a[i])
    requires b == [] || !InClass(cls, b[0])
    ensures RunLength(cls, a + b) == |a|
  {
    var n := RunLength(cls, a + b);
    assert forall i :: 0 <= i < |a| ==> (a + b)[i] == a[i];
    assert |b| > 0 ==> (a + b)[|a|] == b[0];
  }

  /** A greedy run over `a + b` stops inside `a` at the first character of `a` outside the class. */
  lemma RunLengthStopsInside(cls: CharClass, a: string, b: string, i: nat)
    requires i < |a| && !InClass(cls, a[i])
    ensures RunLength(cls, a + b) <= i
  {
    assert (a + b)[i] == a[i];
  }

  /** After the resource group, the parse depends only on the suffix. */
  lemma ParseFromGroupSplits(sub: string, rg: string, tail: string)
    requires IsName(rg)
    requires tail == [] || tail[0] == '/'
    ensures ParseFromGroup(sub, rg + tail)
         == match ParseSuffix(tail)
            case Ok(name) => Ok(ResourceId(sub, rg, name))
            case Err(e) => Err(e)
  {
    RunLengthOfRun(NameClass, rg, tail);
    assert (rg + tail)[|rg|..] == tail;
    assert (rg + tail)[..|rg|] == rg;
  }

  /** After a well-formed subscription id, the parse needs the `/resourceGroups/` literal. */
  lemma ParseFromSubscriptionSplits(sub: string, rest: string)
    requires IsSubscriptionId(sub)
    requires |rest| > 0 && rest[0] == '/'
    ensures ParseFromSubscription(sub + rest)
         == if ResourceGroupsLiteral <= rest
            then ParseFromGroup(sub, rest[|ResourceGroupsLiteral|..])
            else Err(ParseErrorMessage)
  {
    RunLengthOfRun(SubscriptionClass, sub, rest);
    assert (sub + rest)[|sub|..] == rest;
    assert (sub + rest)[..|sub|] == sub;
  }

  /** The leading part of the match: the optional `/` and the `subscriptions/` literal. */
  lemma ParseAnchoredSplits(leadingSlash: bool, s: string)
    ensures ParseAnchored((if leadingSlash then "/" else "") + (SubscriptionsLiteral + s))
         == ParseFromSubscription(s)
  {
    var t := (if leadingSlash then "/" else "") + (SubscriptionsLiteral + s);
    var body := SubscriptionsLiteral + s;
    assert HasLeadingSlash(t) == leadingSlash;
    assert (if leadingSlash then t[1..] else t) == body;
    assert body[|SubscriptionsLiteral|..] == s;
  }

  lemma SubscriptionCharsAreNameChars(s: string)
    requires IsSubscriptionId(s)
    ensures IsName(s)
  {
  }

  /** The components of an id are all made of name-class characters (any of them may be empty). */
  predicate NameTokens(id: ResourceId) {
    && AllNameChars(id.subscriptionId)
    && AllNameChars(id.resourceGroup)
    && (id.applicationName.Some? ==> AllNameChars(id.applicationName.value))
  }

  lemma ParseSuffixOfFormat(name: Option<string>)
    requires name.Some? ==> AllNameChars(name.value)
    ensures ParseSuffix(FormatSuffix(name))
         == if name.Some? ==> IsName(name.value) then Ok(name) else Err(ParseErrorMessage)
  {
    if name.Some? {
      var tail := FormatSuffix(name);
      assert ApplicationsLiteral <= tail;
      assert tail[|ApplicationsLiteral|..] == name.value;
    }
  }

  lemma ParseFromGroupOfFormat(sub: string, rg: string, name: Option<string>)
    requires AllNameChars(rg)
    requires name.Some? ==> AllNameChars(name.value)
    ensures ParseFromGroup(sub, rg + FormatSuffix(name))
         == if IsName(rg) && (name.Some? ==> IsName(name.value))
            then Ok(ResourceId(sub, rg, name)) else Err(ParseErrorMessage)
  {
    var suffix := FormatSuffix(name);
    ParseSuffixOfFormat(name);
    if rg == [] {
      assert name.Some? ==> suffix[0] == ApplicationsLiteral[0];
    } else {
      assert name.Some? ==> suffix[0] == ApplicationsLiteral[0];
      ParseFromGroupSplits(sub, rg, suffix);
    }
  }

  lemma ParseFromSubscriptionOfFormat(id: ResourceId)
    requires NameTokens(id)
    ensures ParseFromSubscription(FormatFromSubscription(id))
         == if Valid(id) then Ok(id) else Err(ParseErrorMessage)
  {
    var sub := id.subscriptionId;
    var after := ResourceGroupsLiteral + (id.resourceGroup + FormatSuffix(id.applicationName));
    var s := sub + after;
    if i :| 0 <= i < |sub| && !IsSubscriptionChar(sub[i]) {
      // The run stops at a name-class character, which is not the `/` the literal needs.
      RunLengthStopsInside(SubscriptionClass, sub, after, i);
      var n := RunLength(SubscriptionClass, s);
      if n > 0 {
        assert s[n..][0] == sub[n];
        assert IsNameChar(sub[n]);
      }
    } else if sub == [] {
      assert s[0] == '/';
    } else {
      ParseFromSubscriptionSplits(sub, after);
      assert after[|ResourceGroupsLiteral|..] == id.resourceGroup + FormatSuffix(id.applicationName);
      ParseFromGroupOfFormat(sub, id.resourceGroup, id.applicationName);
    }
  }

  /** Dropping a final newline only touches what follows a `/`. */
  lemma DropFinalNewlineAfterSlash(p: string, q: string)
    requires |p| > 0 && p[|p| - 1] == '/'
    ensures DropFinalNewline(p + q) == p + DropFinalNewline(q)
  {
    if |q| > 0 {
      assert (p + q)[..|p + q| - 1] == p + q[..|q| - 1];
    }
  }

  /** A formatted id ends in a name-class character or in `/`, so only an added newline is dropped. */
  lemma DropFinalNewlineOfFormat(id: ResourceId, leadingSlash: bool)
    requires NameTokens(id)
    ensures DropFinalNewline(Format(id, leadingSlash)) == Format(id, leadingSlash)
    ensures DropFinalNewline(Format(id, leadingSlash) + "\n") == Format(id, leadingSlash)
  {
    var t := Format(id, leadingSlash);
    var suffix := FormatSuffix(id.applicationName);
    assert t[|t| - 1] != '\n' by {
      if suffix != [] {
        assert t[|t| - 1] == suffix[|suffix| - 1];
      } else if id.resourceGroup != [] {
        assert t[|t| - 1] == id.resourceGroup[|id.resourceGroup| - 1];
      } else {
        assert t[|t| - 1] == '/';
      }
    }
    assert (t + "\n")[..|t|] == t;
  }

  /**
   * For an id whose segments are made of name-class characters, the parse
   * succeeds, with exactly the formatted groups, if and only if the id is
   * valid: every segment non-empty and the subscription id free of upper-case
   * letters, `_`, `.`, `(` and `)`. With or without a final newline.
   */
  lemma {:induction false} ParseOfFormatIffValid(id: ResourceId, leadingSlash: bool)
    requires NameTokens(id)
    ensures ParseResourceId(Format(id, leadingSlash))
         == if Valid(id) then Ok(id) else Err(ParseErrorMessage)
    ensures ParseResourceId(Format(id, leadingSlash) + "\n")
         == if Valid(id) then Ok(id) else Err(ParseErrorMessage)
  {
    DropFinalNewlineOfFormat(id, leadingSlash);
    ParseAnchoredSplits(leadingSlash, FormatFromSubscription(id));
    ParseFromSubscriptionOfFormat(id);
  }

  /**
   * Round trip: every valid id, formatted with or without the leading `/`
   * (the first is the scope string the policy collector builds), parses back
   * to its own groups.
   */
  lemma {:induction false} FormatThenParse(id: ResourceId, leadingSlash: bool)
    requires Valid(id)
    ensures ParseResourceId(Format(id, leadingSlash)) == Ok(id)
  {
    SubscriptionCharsAreNameChars(id.subscriptionId);
    ParseOfFormatIffValid(id, leadingSlash);
  }

  /**
   * The strings the parse accepts, over all inputs: exactly the formatted
   * valid ids, with or without the leading `/`, optionally followed by one
   * `\n`, and each yields its own groups.
   */
  lemma {:induction false} AcceptedIffFormattedValid(s: string, id: ResourceId)
    ensures ParseResourceId(s) == Ok(id)
        <==> Valid(id) && exists b: bool :: s == Format(id, b) || s == Format(id, b) + "\n"
  {
    if ParseResourceId(s) == Ok(id) {
      var b := HasLeadingSlash(s);
      assert s == Format(id, b) || s == Format(id, b) + "\n";
    }
    if Valid(id) && exists b: bool :: s == Format(id, b) || s == Format(id, b) + "\n" {
      var b: bool :| s == Format(id, b) || s == Format(id, b) + "\n";
      SubscriptionCharsAreNameChars(id.subscriptionId);
      ParseOfFormatIffValid(id, b);
    }
  }

  /** The literal segments are matched case-sensitively: `resourcegroups` is rejected. */
  lemma {:induction false} LiteralsAreCaseSensitive(sub: string, rest: string, leadingSlash: bool)
    requires IsSubscriptionId(sub)
    ensures ParseResourceId((if leadingSlash then "/" else "") + (SubscriptionsLiteral + (sub + ("/resourcegroups/" + rest)))).Err?
  {
    var lead := if leadingSlash then "/" else "";
    var after := "/resourcegroups/" + rest;
    DropFinalNewlineAfterSlash("/resourcegroups/", rest);
    DropFinalNewlineOfTail(sub, after);
    DropFinalNewlineOfTail(SubscriptionsLiteral, sub + after);
    DropFinalNewlineOfTail(lead, SubscriptionsLiteral + (sub + after));
    var after' := "/resourcegroups/" + DropFinalNewline(rest);
    ParseAnchoredSplits(leadingSlash, sub + after');
    ParseFromSubscriptionSplits(sub, after');
    LowercaseGroupsLiteral(DropFinalNewline(rest));
  }

  lemma LowercaseGroupsLiteral(rest: string)
    ensures !(ResourceGroupsLiteral <= "/resourcegroups/" + rest)
  {
    assert ("/resourcegroups/" + rest)[9] == "/resourcegroups/"[9] == 'g';
  }

  /** Dropping a final newline from `p + q` with `q` non-empty only touches `q`. */
  lemma DropFinalNewlineOfTail(p: string, q: string)
    requires |q| > 0
    ensures DropFinalNewline(p + q) == p + DropFinalNewline(q)
  {
    assert (p + q)[..|p + q| - 1] == p + q[..|q| - 1];
  }

  /** An id followed by `tail`, nested the way the parser consumes it. */
  lemma FormatWithTail(id: ResourceId, leadingSlash: bool, tail: string)
    ensures Format(id, leadingSlash) + tail
         == (if leadingSlash then "/" else "")
            + (SubscriptionsLiteral + (id.subscriptionId + (ResourceGroupsLiteral
            + (id.resourceGroup + (FormatSuffix(id.applicationName) + tail)))))
  {
    var lead := if leadingSlash then "/" else "";
    var suffix := FormatSuffix(id.applicationName);
    var x1 := id.resourceGroup + suffix;
    var x2 := ResourceGroupsLiteral + x1;
    var x3 := id.subscriptionId + x2;
    var x4 := SubscriptionsLiteral + x3;
    assert x1 + tail == id.resourceGroup + (suffix + tail);
    assert x2 + tail == ResourceGroupsLiteral + (x1 + tail);
    assert x3 + tail == id.subscriptionId + (x2 + tail);
    assert x4 + tail == SubscriptionsLiteral + (x3 + tail);
    assert (lead + x4) + tail == lead + (x4 + tail);
  }

  /**
   * An id without an application name followed by anything that starts with
   * `/` parses only when that is exactly the application suffix.
   */
  lemma ParseOfExtendedGroup(id: ResourceId, leadingSlash: bool, tail: string)
    requires Valid(id) && id.applicationName == None
    requires |tail| > 0 && tail[0] == '/'
    ensures ParseResourceId(Format(id, leadingSlash) + tail).Ok?
        ==> ParseSuffix(DropFinalNewline(tail)).Ok?
  {
    var tail' := DropFinalNewline(tail);
    DropFinalNewlineOfTail(Format(id, leadingSlash), tail);
    assert |tail'| > 0 && tail'[0] == '/' by {
      DropFinalNewlineAfterSlash([tail[0]], tail[1..]);
      assert tail == [tail[0]] + tail[1..];
    }
    FormatWithTail(id, leadingSlash, tail');
    assert FormatSuffix(id.applicationName) + tail' == tail';
    var after := ResourceGroupsLiteral + (id.resourceGroup + tail');
    ParseAnchoredSplits(leadingSlash, id.subscriptionId + after);
    ParseFromSubscriptionSplits(id.subscriptionId, after);
    assert after[|ResourceGroupsLiteral|..] == id.resourceGroup + tail';
    ParseFromGroupSplits(id.subscriptionId, id.resourceGroup, tail');
  }

  /** Where the `/` characters of the application suffix stand. */
  lemma ApplicationsLiteralShape()
    ensures |ApplicationsLiteral| == 44
    ensures ApplicationsLiteral[11..30] == SolutionsNamespace
    ensures forall j :: 11 <= j < 30 ==> ApplicationsLiteral[j] != '/'
  {
    assert ApplicationsLiteral[11..30] == SolutionsNamespace;
    forall j | 11 <= j < 30 ensures ApplicationsLiteral[j] != '/' {
      assert ApplicationsLiteral[j] == SolutionsNamespace[j - 11];
    }
  }

  /** The application suffix names the `Microsoft.Solutions` namespace and nothing else. */
  lemma OtherProviderSuffixRejected(namespace: string, rest: string)
    requires namespace != SolutionsNamespace
    ensures ParseSuffix("/providers/" + (namespace + ("/applications/" + rest))).Err?
  {
    var tail := "/providers/" + (namespace + ("/applications/" + rest));
    if ApplicationsLiteral <= tail {
      ApplicationsLiteralShape();
      var k := |namespace|;
      assert tail[11 + k] == '/' && tail[24 + k] == '/';
      // A shorter or equally long namespace already clashes with the literal.
      if k > 19 {
        assert tail[|ApplicationsLiteral|..][k - 20] == '/';
      }
    }
  }

  /** A provider namespace other than `Microsoft.Solutions` is rejected, whatever follows it. */
  lemma {:induction false} OtherProviderRejected(id: ResourceId, namespace: string, name: string, leadingSlash: bool)
    requires Valid(id) && id.applicationName == None
    requires namespace != SolutionsNamespace
    ensures ParseResourceId(Format(id, leadingSlash) + ("/providers/" + (namespace + ("/applications/" + name)))).Err?
  {
    var tail := "/providers/" + (namespace + ("/applications/" + name));
    ParseOfExtendedGroup(id, leadingSlash, tail);
    DropFinalNewlineAfterSlash("/applications/", name);
    DropFinalNewlineOfTail(namespace, "/applications/" + name);
    DropFinalNewlineOfTail("/providers/", namespace + ("/applications/" + name));
    OtherProviderSuffixRejected(namespace, DropFinalNewline(name));
  }

  /** After the resource group, a `/` that does not begin the application suffix is rejected. */
  lemma {:induction false} TrailingSegmentAfterGroupRejected(id: ResourceId, leadingSlash: bool, extra: string)
    requires Valid(id) && id.applicationName == None
    requires !(ApplicationsLiteral <= "/" + extra)
    ensures ParseResourceId(Format(id, leadingSlash) + ("/" + extra)).Err?
  {
    SlashSegmentNotSuffix(extra);
    ParseOfExtendedGroup(id, leadingSlash, "/" + extra);
  }

  /** A `/` segment that does not start the applications literal is no application suffix. */
  lemma SlashSegmentNotSuffix(extra: string)
    requires !(ApplicationsLiteral <= "/" + extra)
    ensures ParseSuffix(DropFinalNewline("/" + extra)).Err?
  {
    DropFinalNewlineAfterSlash("/", extra);
    if ApplicationsLiteral <= DropFinalNewline("/" + extra) {
      PrefixOfDroppedNewline(ApplicationsLiteral, "/" + extra);
    }
  }

  /** A prefix of the text without its final newline is a prefix of the text. */
  lemma PrefixOfDroppedNewline(p: string, s: string)
    requires p <= DropFinalNewline(s)
    ensures p <= s
  {
    assert s[..|p|] == DropFinalNewline(s)[..|p|];
  }

  /** An id with an application name is the id without it followed by the application suffix. */
  lemma FormatOfNamedId(id: ResourceId, leadingSlash: bool, rest: string)
    requires id.applicationName.Some?
    ensures Format(id, leadingSlash) + rest
         == Format(ResourceId(id.subscriptionId, id.resourceGroup, None), leadingSlash)
            + (ApplicationsLiteral + (id.applicationName.value + rest))
  {
    var base := ResourceId(id.subscriptionId, id.resourceGroup, None);
    var tail := ApplicationsLiteral + (id.applicationName.value + rest);
    FormatWithTail(id, leadingSlash, rest);
    FormatWithTail(base, leadingSlash, tail);
    assert FormatSuffix(base.applicationName) + tail == tail;
    assert FormatSuffix(id.applicationName) + rest == tail;
  }

  /** After the application name, any further `/` segment is rejected. */
  lemma {:induction false} TrailingSegmentAfterNameRejected(id: ResourceId, leadingSlash: bool, extra: string)
    requires Valid(id) && id.applicationName.Some?
    ensures ParseResourceId(Format(id, leadingSlash) + ("/" + extra)).Err?
  {
    var name := id.applicationName.value;
    var base := ResourceId(id.subscriptionId, id.resourceGroup, None);
    var tail := ApplicationsLiteral + (name + ("/" + extra));
    FormatOfNamedId(id, leadingSlash, "/" + extra);
    assert tail[0] == ApplicationsLiteral[0];
    ParseOfExtendedGroup(base, leadingSlash, tail);
    assert ParseSuffix(DropFinalNewline(tail)).Err? by {
      DropFinalNewlineAfterSlash("/", extra);
      DropFinalNewlineOfTail(name, "/" + extra);
      DropFinalNewlineOfTail(ApplicationsLiteral, name + ("/" + extra));
      var tail' := ApplicationsLiteral + (name + ("/" + DropFinalNewline(extra)));
      assert tail'[|ApplicationsLiteral|..][|name|] == '/';
    }
  }
}
