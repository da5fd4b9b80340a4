/**
 * The three supported cloud providers and everything the command line layer
 * derives from the provider alone: its lower-case name, its default instance
 * type, and its fixed list of regions from which a random one is drawn when the
 * user names none.
 */
module Providers {

  datatype Provider = Aws | Gcp | Hetzner

  /** The provider's name as used in the template directory layout. */
  function ProviderString(p: Provider): (s: string)
    ensures |s| > 0 && '/' !in s
  {
    match p
    case Aws => "aws"
    case Gcp => "gcp"
    case Hetzner => "hetzner"
  }

  /** Distinct providers select distinct template directories. */
  lemma ProviderStringInjective(p: Provider, q: Provider)
    ensures ProviderString(p) == ProviderString(q) <==> p == q
  {
  }

  /** The instance type used when the user gives none. */
  function DefaultInstanceType(p: Provider): (s: string)
    ensures |s| > 0
  {
    match p
    case Aws => "t3.micro"
    case Gcp => "f1-micro"
    case Hetzner => "cx11"
  }

  /**
   * The defaults the code uses (the command line help text advertises
   * different ones for AWS and GCP; the code wins).
   */
  lemma DefaultInstanceTypes()
    ensures DefaultInstanceType(Aws) == "t3.micro"
    ensures DefaultInstanceType(Gcp) == "f1-micro"
    ensures DefaultInstanceType(Hetzner) == "cx11"
  {
  }

  const AwsRegions: seq<string> := [
    "us-east-1", "us-east-2", "us-west-1", "us-west-2", "ap-south-1",
    "ap-northeast-3", "ap-northeast-2", "ap-southeast-1", "ap-southeast-2",
    "ap-northeast-1", "ca-central-1", "eu-central-1", "eu-west-1", "eu-west-2",
    "eu-west-3", "eu-north-1", "sa-east-1"
  ]

  const GcpRegions: seq<string> := [
    "us-central1", "us-east1", "us-east4", "us-west1", "us-west2", "us-west3",
    "us-west4", "northamerica-northeast1", "southamerica-east1", "europe-west1",
    "europe-west2", "europe-west3", "europe-west4", "europe-west6",
    "europe-west8", "europe-west9", "europe-north1", "europe-southwest1",
    "asia-east1", "asia-east2", "asia-northeast1", "asia-northeast2",
    "asia-northeast3", "asia-south1", "asia-south2", "asia-southeast1",
    "asia-southeast2", "australia-southeast1", "australia-southeast2",
    "me-central1", "me-west1"
  ]

  const HetznerRegions: seq<string> := ["fsn1", "nbg1", "hel1", "ash", "hil"]

  /** The fixed region list of a provider. */
  function Regions(p: Provider): (rs: seq<string>)
    ensures |rs| > 0
  {
    match p
    case Aws => AwsRegions
    case Gcp => GcpRegions
    case Hetzner => HetznerRegions
  }

  /** The list sizes: 17 AWS regions, 31 GCP zones, 5 Hetzner locations. */
  lemma RegionCounts()
    ensures |Regions(Aws)| == 17 && |Regions(Gcp)| == 31 && |Regions(Hetzner)| == 5
  {
  }

  /**
   * Each list holds at least two different names, so a random draw is not
   * determined by the provider.
   */
  lemma RegionsOffer(p: Provider) returns (a: string, b: string)
    ensures a in Regions(p) && b in Regions(p) && a != b
  {
    var rs := Regions(p);
    var j := match p case Aws => 4 case Gcp => 1 case Hetzner => 3;
    a, b := rs[0], rs[j];
    assert |a| != |b|;
  }

  /** The shape of every AWS region name: nine characters or more, a dash before the last. */
  predicate AwsShaped(s: string) { |s| >= 9 && s[|s| - 2] == '-' }

  /** The shape of every GCP region name: eight characters or more, no dash before the last. */
  predicate GcpShaped(s: string) { |s| >= 8 && s[|s| - 2] != '-' }

  lemma AwsRegionsShaped(i: nat)
    requires i < |AwsRegions|
    ensures AwsShaped(AwsRegions[i])
  {
  }

  lemma GcpRegionsShaped(i: nat)
    requires i < |GcpRegions|
    ensures GcpShaped(GcpRegions[i])
  {
  }

  lemma HetznerRegionsShort(i: nat)
    requires i < |HetznerRegions|
    ensures |HetznerRegions[i]| <= 4
  {
  }

  /** The shape every name in a provider's list has, and no name in another list has. */
  predicate RegionShaped(p: Provider, s: string)
  {
    match p
    case Aws => AwsShaped(s)
    case Gcp => GcpShaped(s)
    case Hetzner => |s| <= 4
  }

  lemma RegionsShaped(p: Provider, i: nat)
    requires i < |Regions(p)|
    ensures RegionShaped(p, Regions(p)[i])
  {
    match p
    case Aws => AwsRegionsShaped(i);
    case Gcp => GcpRegionsShaped(i);
    case Hetzner => HetznerRegionsShort(i);
  }

  /**
   * No region name belongs to two providers' lists, so the drawn region also
   * tells which provider it was drawn for.
   */
  lemma RegionListsDisjoint(p: Provider, q: Provider, i: nat, j: nat)
    requires i < |Regions(p)| && j < |Regions(q)|
    requires Regions(p)[i] == Regions(q)[j]
    ensures p == q
  {
    RegionsShaped(p, i);
    RegionsShaped(q, j);
  }

  /**
   * `resolve_random_region`: a region drawn from the provider's own list. The
   * random choice is a nondeterministic pick; since every list is non-empty
   * the pick always exists, so the `expect` of the source never fires.
   */
  method ResolveRandomRegion(p: Provider) returns (r: string)
    ensures r in Regions(p)
  {
    var rs := Regions(p);
    var i :| 0 <= i < |rs|;
    r := rs[i];
  }
}
