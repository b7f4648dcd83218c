/** `sanitize` (cmd/point.go): turns the domain the user points at into the
    name shared by the Service, Endpoints and Ingress objects.

    The fully-qualified-domain-name check it starts with belongs to the
    Kubernetes validation library and is not part of this model: it is a
    parameter `isFqdn`, about which nothing is assumed except, in the lemmas
    that replay the repository's test table, the verdicts that table needs. */
module Sanitizer {
  import opened Results
  import opened GoStrings
  import opened DnsLabel

  /** Prepended when the dotted-to-hyphenated subject is not a label. */
  const RootPrefix: string := "rootdomain-"

  datatype SanitizeError = NotFullyQualified(subject: string)

  /** The subject with every `.` replaced by `-` (the `hostname` variable). */
  function Hyphenate(subject: string): (h: string)
    ensures |h| == |subject| && '.' !in h
    ensures forall i :: 0 <= i < |subject| ==> h[i] == (if subject[i] == '.' then '-' else subject[i])
  {
    ReplaceAll(subject, '.', '-')
  }

  /** Hyphenation is splitting at the dots and joining with hyphens: the
      labels of the domain are kept, in order, and only their separator
      changes. */
  lemma HyphenateIsSplitJoin(subject: string)
    ensures Hyphenate(subject) == Join(Split(subject, '.'), '-')
  {
    ReplaceAllIsSplitJoin(subject, '.', '-');
  }

  /** `sanitize(subject)`. A subject the FQDN check rejects is an error and
      nothing else is computed; otherwise the name has no dot and is either
      as long as the subject or longer by exactly the prefix. */
  function Sanitize(isFqdn: string -> bool, subject: string): (r: Result<string, SanitizeError>)
    ensures r.Err? <==> !isFqdn(subject)
    ensures r.Err? ==> r.error == NotFullyQualified(subject)
    ensures r.Ok? ==> '.' !in r.value
    ensures r.Ok? ==> |r.value| == |subject| || |r.value| == |subject| + |RootPrefix|
  {
    if !isFqdn(subject) then Err(NotFullyQualified(subject))
    else
      var hostname := Hyphenate(subject);
      if |Dns1035LabelErrors(hostname)| != 0 then Ok(RootPrefix + hostname)
      else Ok(hostname)
  }

  /** The hyphenated subject is a label exactly when the subject itself has
      1 to 63 characters from `[a-z0-9.-]`, starts with a letter and ends with
      a letter or digit. For a subject the FQDN check accepts, the defects
      left are a leading digit, a length over 63 and a trailing dot; each
      sends `Sanitize` down the prefixing branch. (Characters outside
      `[a-z0-9.-]`, upper case included, fail the library's FQDN check
      first; since `isFqdn` is a parameter here, this model does not
      exclude them and would prefix them too.) */
  lemma HyphenatedIsLabelIff(subject: string)
    ensures IsDns1035Label(Hyphenate(subject)) <==>
      && 0 < |subject| <= MaxLabelLength
      && IsLower(subject[0])
      && IsAlnum(subject[|subject| - 1])
      && forall i :: 0 <= i < |subject| ==> IsLabelChar(subject[i]) || subject[i] == '.'
  {
  }

  /** A subject whose hyphenated form is a label is returned in that form. */
  lemma SanitizeKeepsLabel(isFqdn: string -> bool, subject: string, hostname: string)
    requires isFqdn(subject) && Hyphenate(subject) == hostname
    requires IsDns1035Label(hostname)
    ensures Sanitize(isFqdn, subject) == Ok(hostname)
  {
  }

  /** A subject whose hyphenated form is not a label, for whatever reason,
      gets the prefix, and nothing checks the prefixed name again. */
  lemma SanitizePrefixesNonLabel(isFqdn: string -> bool, subject: string, hostname: string)
    requires isFqdn(subject) && Hyphenate(subject) == hostname
    requires !IsDns1035Label(hostname)
    ensures Sanitize(isFqdn, subject) == Ok(RootPrefix + hostname)
  {
  }

  /** The assumption written next to the prefixing branch: when the only
      defect is a leading digit and the name is short enough for the prefix,
      the prefixed name is a label. */
  lemma PrefixRepairsLeadingDigit(isFqdn: string -> bool, subject: string)
    requires isFqdn(subject)
    requires 0 < |subject| <= MaxLabelLength - |RootPrefix|
    requires IsDecimal(subject[0]) && IsAlnum(subject[|subject| - 1])
    requires forall i :: 0 <= i < |subject| ==> IsLabelChar(subject[i]) || subject[i] == '.'
    ensures Sanitize(isFqdn, subject).Ok?
    ensures IsDns1035Label(Sanitize(isFqdn, subject).value)
  {
  }

  /** That assumption does not always hold. A subject of more than 52
      characters that takes the prefixing branch gets a name over 63
      characters, and a subject with a trailing dot (which a fully-qualified
      name may have) gets a name ending in a hyphen: neither is a label. */
  lemma PrefixedNameNotAlwaysLabel(isFqdn: string -> bool, subject: string)
    requires isFqdn(subject)
    requires !IsDns1035Label(Hyphenate(subject))
    requires |subject| > MaxLabelLength - |RootPrefix| || (|subject| > 0 && subject[|subject| - 1] == '.')
    ensures Sanitize(isFqdn, subject).Ok?
    ensures !IsDns1035Label(Sanitize(isFqdn, subject).value)
  {
  }

  // Concrete facts about the example subjects, one per lemma so that each
  // is checked on its own.
  lemma HyphenateLaunchUs() ensures Hyphenate("launch.us") == "launch-us" {}
  lemma HyphenateValidLaunchUs() ensures Hyphenate("valid.launch.us") == "valid-launch-us" {}
  lemma HyphenateDigitLaunchUs() ensures Hyphenate("2launch.us") == "2launch-us" {}
  lemma HyphenateDashed() ensures Hyphenate("a-b.launch.us") == "a-b-launch-us" {}
  lemma HyphenateDotted() ensures Hyphenate("a.b.launch.us") == "a-b-launch-us" {}
  lemma HyphenateRootdomain() ensures Hyphenate("rootdomain.2launch.us") == "rootdomain-2launch-us" {}
  lemma LabelLaunchUs() ensures IsDns1035Label("launch-us") {}
  lemma LabelValidLaunchUs() ensures IsDns1035Label("valid-launch-us") {}
  lemma NotLabelDigitLaunchUs() ensures !IsDns1035Label("2launch-us") {}
  lemma LabelDashed() ensures IsDns1035Label("a-b-launch-us") {}
  lemma LabelRootdomain() ensures IsDns1035Label("rootdomain-2launch-us") {}
  lemma PrefixDigitLaunchUs() ensures RootPrefix + "2launch-us" == "rootdomain-2launch-us" {}

  /** Different subjects can share a name: dots and hyphens are conflated, and
      a prefixed name can coincide with the unprefixed name of another subject. */
  lemma SanitizeNotInjective(isFqdn: string -> bool)
    requires isFqdn("a-b.launch.us") && isFqdn("a.b.launch.us")
    requires isFqdn("2launch.us") && isFqdn("rootdomain.2launch.us")
    ensures Sanitize(isFqdn, "a-b.launch.us") == Sanitize(isFqdn, "a.b.launch.us") == Ok("a-b-launch-us")
    ensures Sanitize(isFqdn, "2launch.us") == Sanitize(isFqdn, "rootdomain.2launch.us") == Ok("rootdomain-2launch-us")
  {
    HyphenateDashed();
    HyphenateDotted();
    HyphenateRootdomain();
    HyphenateDigitLaunchUs();
    LabelDashed();
    LabelRootdomain();
    NotLabelDigitLaunchUs();
    PrefixDigitLaunchUs();
    SanitizeKeepsLabel(isFqdn, "a-b.launch.us", "a-b-launch-us");
    SanitizeKeepsLabel(isFqdn, "a.b.launch.us", "a-b-launch-us");
    SanitizeKeepsLabel(isFqdn, "rootdomain.2launch.us", "rootdomain-2launch-us");
    SanitizePrefixesNonLabel(isFqdn, "2launch.us", "2launch-us");
  }

  /** Re-sanitizing an output that is a label and that the FQDN check accepts
      gives it back unchanged. This holds of `Sanitize` for any `isFqdn`, but
      it is vacuous for the program's check, which accepts no dot-free name
      (see `ResanitizeFails`). */
  lemma SanitizeFixedPoint(isFqdn: string -> bool, subject: string)
    requires Sanitize(isFqdn, subject).Ok?
    requires IsDns1035Label(Sanitize(isFqdn, subject).value)
    requires isFqdn(Sanitize(isFqdn, subject).value)
    ensures Sanitize(isFqdn, Sanitize(isFqdn, subject).value) == Sanitize(isFqdn, subject)
  {
    var n := Sanitize(isFqdn, subject).value;
    var h := Hyphenate(n);
    forall i | 0 <= i < |n|
      ensures h[i] == n[i]
    {
      assert n[i] != '.';
    }
    assert h == n;
  }
  /** For the program's FQDN check, which demands at least two dot-separated
      labels, `SanitizeFixedPoint` never applies: a name `Sanitize` returns
      has no dot, so sanitizing it again is an error. */
  lemma ResanitizeFails(isFqdn: string -> bool, subject: string)
    requires forall s :: isFqdn(s) ==> '.' in s
    requires isFqdn(subject)
    ensures Sanitize(isFqdn, subject).Ok?
    ensures Sanitize(isFqdn, Sanitize(isFqdn, subject).value).Err?
  {
  }


  /** The verdicts of the FQDN check that the repository's test table relies on. */
  predicate AgreesWithTestTable(isFqdn: string -> bool) {
    && isFqdn("2launch.us")
    && isFqdn("launch.us")
    && isFqdn("valid.launch.us")
    && !isFqdn("invalid")
  }

  /** The test table of `TestSanitize`. */
  lemma SanitizeTestTable(isFqdn: string -> bool)
    requires AgreesWithTestTable(isFqdn)
    ensures Sanitize(isFqdn, "2launch.us") == Ok("rootdomain-2launch-us")
    ensures Sanitize(isFqdn, "launch.us") == Ok("launch-us")
    ensures Sanitize(isFqdn, "valid.launch.us") == Ok("valid-launch-us")
    ensures Sanitize(isFqdn, "invalid").Err?
  {
    HyphenateDigitLaunchUs();
    HyphenateLaunchUs();
    HyphenateValidLaunchUs();
    NotLabelDigitLaunchUs();
    LabelLaunchUs();
    LabelValidLaunchUs();
    PrefixDigitLaunchUs();
    SanitizePrefixesNonLabel(isFqdn, "2launch.us", "2launch-us");
    SanitizeKeepsLabel(isFqdn, "launch.us", "launch-us");
    SanitizeKeepsLabel(isFqdn, "valid.launch.us", "valid-launch-us");
  }
}
