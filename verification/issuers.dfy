/** Choosing the cert-manager issuer when `--tls-auto` is on. Listing the
    issuers and showing the prompt are outside this model: the two name lists
    and the prompt's answer are inputs. */
module Issuers {
  import opened Results

  /** What the interactive prompt returns: the position of the chosen item,
      or a cancellation (any error from `prompt.Run`). */
  datatype Prompt = Choose(index: nat) | Cancel

  datatype IssuerError = NoIssuerAvailable | SelectionAborted

  /** The prompt only ever returns a position in the list it was shown. */
  predicate AnswersWithin(prompt: Prompt, count: nat) {
    prompt.Choose? ==> prompt.index < count
  }

  /** The list the prompt shows: cluster issuers first, then the issuers of
      every namespace, in listing order and without removing duplicates. */
  function Candidates(clusterIssuers: seq<string>, issuers: seq<string>): seq<string>
  {
    clusterIssuers + issuers
  }

  /** The two `append` loops that build the prompt's list. */
  method CollectCandidates(clusterIssuers: seq<string>, issuers: seq<string>) returns (items: seq<string>)
    ensures items == Candidates(clusterIssuers, issuers)
    ensures |items| == |clusterIssuers| + |issuers|
    ensures forall i :: 0 <= i < |clusterIssuers| ==> items[i] == clusterIssuers[i]
    ensures forall i :: 0 <= i < |issuers| ==> items[|clusterIssuers| + i] == issuers[i]
  {
    items := [];
    var i := 0;
    while i < |clusterIssuers|
      invariant 0 <= i <= |clusterIssuers|
      invariant items == clusterIssuers[..i]
    {
      items := items + [clusterIssuers[i]];
      i := i + 1;
    }
    var j := 0;
    while j < |issuers|
      invariant 0 <= j <= |issuers|
      invariant items == clusterIssuers + issuers[..j]
    {
      items := items + [issuers[j]];
      j := j + 1;
    }
  }

  /** An empty candidate list is fatal before the prompt is shown; otherwise
      the prompt decides, and whatever it picks is used as is. */
  function SelectIssuer(clusterIssuers: seq<string>, issuers: seq<string>, prompt: Prompt): (r: Result<string, IssuerError>)
    requires AnswersWithin(prompt, |clusterIssuers| + |issuers|)
    ensures r == Err(NoIssuerAvailable) <==> |clusterIssuers| + |issuers| == 0
    ensures r == Err(SelectionAborted) <==> |clusterIssuers| + |issuers| > 0 && prompt.Cancel?
    ensures r.Ok? ==> r.value in clusterIssuers || r.value in issuers
    ensures r.Ok? && prompt.index < |clusterIssuers| ==> r.value == clusterIssuers[prompt.index]
    ensures r.Ok? && prompt.index >= |clusterIssuers| ==> r.value == issuers[prompt.index - |clusterIssuers|]
  {
    var items := Candidates(clusterIssuers, issuers);
    if |items| == 0 then Err(NoIssuerAvailable)
    else match prompt
      case Cancel => Err(SelectionAborted)
      case Choose(i) => Ok(items[i])
  }
}
