/**
 * The naming convention: the names of the Kubernetes resources that make up a
 * cluster, the hostnames of its pods, and the MySQL image reference.
 */
module Naming {
  import opened Wrappers
  import Decimal
  import opened Config

  /** The roles of the resources created for a cluster. */
  datatype ResourceName = HeadlessSVC | StatefulSet | ConfigMap | EnvSecret | BackupCronJob

  const NameSuffix := "-mysql"

  /** The name of the resource playing `role` for cluster `clusterName`; the role is ignored. */
  function NameForResource(role: ResourceName, clusterName: string): (r: string)
    ensures |r| == |clusterName| + |NameSuffix|
    ensures r[..|clusterName|] == clusterName && r[|clusterName|..] == NameSuffix
  {
    clusterName + NameSuffix
  }

  /** Every role gets the same name, so the headless service and the stateful set share it. */
  lemma NameIgnoresRole(a: ResourceName, b: ResourceName, clusterName: string)
    ensures NameForResource(a, clusterName) == NameForResource(b, clusterName)
  {
  }

  /** Different clusters get different resource names. */
  lemma NameForResourceInjective(role: ResourceName, c1: string, c2: string)
    requires NameForResource(role, c1) == NameForResource(role, c2)
    ensures c1 == c2
  {
    var n := NameForResource(role, c1);
    assert |c1| == |c2|;
    assert c1 == n[..|c1|] == c2;
  }

  /** The hostname of the pod with ordinal `p`: `<statefulset>-<p>.<headless service>`. */
  function PodHostName(clusterName: string, p: int): (r: string)
    ensures r == clusterName + "-mysql-" + Decimal.Format(p) + "." + clusterName + "-mysql"
  {
    NameForResource(StatefulSet, clusterName) + "-" + Decimal.Format(p) + "."
      + NameForResource(HeadlessSVC, clusterName)
  }

  /** Written out, a pod hostname is `<cluster>-mysql-<p>.<cluster>-mysql`. */
  lemma PodHostNameShape(clusterName: string, p: int)
    ensures PodHostName(clusterName, p)
         == clusterName + "-mysql-" + Decimal.Format(p) + "." + clusterName + "-mysql"
  {
  }

  /** The ordinal written in `host` if it is a pod hostname of cluster `clusterName`. */
  function OrdinalOf(clusterName: string, host: string): Option<int> {
    var prefix := clusterName + "-mysql-";
    var suffix := "." + clusterName + "-mysql";
    if |host| >= |prefix| + |suffix|
       && host[..|prefix|] == prefix && host[|host| - |suffix|..] == suffix
    then Decimal.Parse(host[|prefix|..|host| - |suffix|])
    else None
  }

  /** The ordinal can be read back from a pod hostname. */
  lemma PodHostNameOrdinal(clusterName: string, p: int)
    ensures OrdinalOf(clusterName, PodHostName(clusterName, p)) == Some(p)
  {
    var host := PodHostName(clusterName, p);
    var prefix := clusterName + "-mysql-";
    var suffix := "." + clusterName + "-mysql";
    var digits := Decimal.Format(p);
    PodHostNameShape(clusterName, p);
    assert host == prefix + digits + suffix;
    assert host[..|prefix|] == prefix;
    assert host[|host| - |suffix|..] == suffix;
    assert host[|prefix|..|host| - |suffix|] == digits;
    Decimal.FormatParse(p);
  }

  /** Pods of one cluster with different ordinals have different hostnames. */
  lemma PodHostNameInjective(clusterName: string, p: int, q: int)
    requires PodHostName(clusterName, p) == PodHostName(clusterName, q)
    ensures p == q
  {
    PodHostNameOrdinal(clusterName, p);
    PodHostNameOrdinal(clusterName, q);
  }

  /** The MySQL container image: the configured repository, a colon, the version tag. */
  function MysqlImage(opt: Options, mysqlVersion: string): (r: string)
    ensures |r| == |opt.mysqlImage| + 1 + |mysqlVersion|
    ensures r[..|opt.mysqlImage|] == opt.mysqlImage && r[|opt.mysqlImage|] == ':'
    ensures r[|opt.mysqlImage| + 1..] == mysqlVersion
  {
    opt.mysqlImage + ":" + mysqlVersion
  }

  /** The tag of an image reference: the text after its last colon (all of it when there is none). */
  function TagOf(image: string): string {
    if image == [] || image[|image| - 1] == ':' then []
    else TagOf(image[..|image| - 1]) + [image[|image| - 1]]
  }

  lemma {:induction false} TagOfAfterColon(prefix: string, tag: string)
    requires ':' !in tag
    ensures TagOf(prefix + ":" + tag) == tag
  {
    var image := prefix + ":" + tag;
    if tag != [] {
      var init := tag[..|tag| - 1];
      assert image[..|image| - 1] == prefix + ":" + init;
      assert tag[|tag| - 1] in tag;
      TagOfAfterColon(prefix, init);
      assert tag == init + [tag[|tag| - 1]];
    }
  }

  /** A version without a colon is exactly the tag of the image built from it. */
  lemma MysqlImageTag(opt: Options, mysqlVersion: string)
    requires ':' !in mysqlVersion
    ensures TagOf(MysqlImage(opt, mysqlVersion)) == mysqlVersion
    ensures MysqlImage(opt, mysqlVersion)[..|opt.mysqlImage|] == opt.mysqlImage
  {
    TagOfAfterColon(opt.mysqlImage, mysqlVersion);
  }
}
