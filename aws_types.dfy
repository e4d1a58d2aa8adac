/**
 * internal/kubeconfig/aws/types.go: the fields of an Amazon Resource Name
 * of the form arn:partition:service:region:account:resource/name.
 */
module AwsTypes {
  import opened Text

  datatype Arn = Arn(
    partition: string,
    service: string,
    region: string,
    accountId: string,
    resource: string,
    resourceName: string)

  /** Whether the Go code can index the sixth colon-separated field without panicking. */
  predicate HasSixFields(arn: string) {
    |Split(arn, ':')| >= 6
  }

  /**
   * NewArn: colon-fields 1 to 4 are partition, service, region and account;
   * field 5 holds resource and name separated by '/', or neither when it
   * has no '/'. Field 0 and anything after field 5 are ignored.
   */
  function NewArn(arn: string): (r: Arn)
    requires HasSixFields(arn)
    ensures ':' !in r.partition && ':' !in r.service && ':' !in r.region && ':' !in r.accountId
    ensures '/' !in r.resource && '/' !in r.resourceName
  {
    var parts := Split(arn, ':');
    var resourceParts := Split(parts[5], '/');
    var resource := if |resourceParts| > 1 then resourceParts[0] else "";
    var resourceName := if |resourceParts| > 1 then resourceParts[1] else "";
    Arn(parts[1], parts[2], parts[3], parts[4], resource, resourceName)
  }

  // ---- properties ----

  /**
   * Joining six or more colon-free fields and parsing the result gives
   * fields 1 to 4 back, and the first two '/'-separated pieces of field 5 as
   * resource and name: field 0, any later pieces of field 5 and any fields
   * after it are ignored.
   */
  lemma ArnRoundTrip(fields: seq<string>, resource: string, resourceName: string, rest: string)
    requires |fields| >= 6 && forall k :: 0 <= k < |fields| ==> ':' !in fields[k]
    requires fields[5] == resource + "/" + resourceName + rest
    requires '/' !in resource && '/' !in resourceName
    requires rest == [] || rest[0] == '/'
    ensures HasSixFields(Join(fields, ':'))
    ensures NewArn(Join(fields, ':')) == Arn(fields[1], fields[2], fields[3], fields[4], resource, resourceName)
  {
    SplitJoin(fields, ':');
    FirstTwoPieces(resource, resourceName, rest);
  }

  /** Splitting "resource/name" followed by nothing or by '/' and more pieces yields resource and name first. */
  lemma FirstTwoPieces(resource: string, resourceName: string, rest: string)
    requires '/' !in resource && '/' !in resourceName
    requires rest == [] || rest[0] == '/'
    ensures var p := Split(resource + "/" + resourceName + rest, '/');
      |p| > 1 && p[0] == resource && p[1] == resourceName
  {
    var tail := resourceName + rest;
    assert resource + "/" + resourceName + rest == resource + ['/'] + tail;
    SplitCons(resource, tail, '/');
    SplitHead(resourceName, rest, '/');
  }

  /** A sixth field without '/' leaves resource and name empty. */
  lemma ArnWithoutResourceName(arn: string)
    requires HasSixFields(arn) && '/' !in Split(arn, ':')[5]
    ensures NewArn(arn).resource == "" && NewArn(arn).resourceName == ""
  {
    SplitNoSep(Split(arn, ':')[5], '/');
  }
}
