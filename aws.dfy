/** The AWS adapter's account management: normalising and validating the
    configured credentials, deciding whether a re-registration changed them,
    and finding the account that owns a VPC. */
module Aws {
  import opened Wrappers
  import opened Text
  import opened Internal

  /** `CloudProviderAccountAWSConfig`: the credentials as configured, untrimmed. */
  datatype AwsConfig = AwsConfig(accountID: string, accessKeyID: string, accessKeySecret: string,
                                 region: string, roleArn: string, externalID: string)

  /** `awsAccountCredentials`. */
  datatype AwsAccountCredentials = AwsAccountCredentials(accountID: string, accessKeyID: string,
                                                         accessKeySecret: string, region: string,
                                                         roleArn: string, externalID: string)

  /** The validation failure: the normalised region and the supported ones it was checked against. */
  datatype CredentialsError = UnsupportedRegion(region: string, supportedRegions: seq<string>)

  /** The four fields whose change counts as a credentials change. */
  datatype CredentialField = AccountID | AccessKeyID | AccessKeySecret | Region

  function Field(c: AwsAccountCredentials, f: CredentialField): string {
    match f
    case AccountID => c.accountID
    case AccessKeyID => c.accessKeyID
    case AccessKeySecret => c.accessKeySecret
    case Region => c.region
  }

  /** The position at which `compareAccountCredentials` checks a field. */
  function CheckPosition(f: CredentialField): nat {
    match f
    case AccountID => 0
    case AccessKeyID => 1
    case AccessKeySecret => 2
    case Region => 3
  }

  /** No field starts or ends with white space. */
  predicate Normalized(c: AwsAccountCredentials) {
    && Trimmed(c.accountID) && Trimmed(c.accessKeyID) && Trimmed(c.accessKeySecret)
    && Trimmed(c.region) && Trimmed(c.roleArn) && Trimmed(c.externalID)
  }

  /** Every field of the configuration with its surrounding white space removed. */
  function NormalizedCredentials(config: AwsConfig): (c: AwsAccountCredentials)
    ensures Normalized(c)
  {
    AwsAccountCredentials(TrimSpace(config.accountID), TrimSpace(config.accessKeyID),
                          TrimSpace(config.accessKeySecret), TrimSpace(config.region),
                          TrimSpace(config.roleArn), TrimSpace(config.externalID))
  }

  predicate Distinct(s: seq<string>) {
    forall i, j :: 0 <= i < j < |s| ==> s[i] != s[j]
  }

  /** The keys of the region table, collected one by one in the table's
      (unspecified) iteration order. */
  method RegionList(regions: set<string>) returns (supportedRegions: seq<string>)
    ensures forall x :: x in supportedRegions <==> x in regions
    ensures Distinct(supportedRegions)
    ensures |supportedRegions| == |regions|
  {
    supportedRegions := [];
    var rest := regions;
    while rest != {}
      invariant rest <= regions
      invariant forall x :: x in supportedRegions <==> x in regions && x !in rest
      invariant Distinct(supportedRegions)
      invariant |supportedRegions| + |rest| == |regions|
      decreases rest
    {
      var key :| key in rest;
      supportedRegions := supportedRegions + [key];
      rest := rest - {key};
    }
  }

  /** `setAccountCredentials`; `regions` is the region table of the AWS
      standard partition. The result is the trimmed configuration when its
      region is supported, and otherwise an error listing every supported
      region exactly once (in an unspecified order). */
  method SetAccountCredentials(config: AwsConfig, regions: set<string>)
    returns (r: Result<AwsAccountCredentials, CredentialsError>)
    ensures r.Success? <==> TrimSpace(config.region) in regions
    ensures r.Success? ==>
      && r.value.accountID == TrimSpace(config.accountID)
      && r.value.accessKeyID == TrimSpace(config.accessKeyID)
      && r.value.accessKeySecret == TrimSpace(config.accessKeySecret)
      && r.value.region == TrimSpace(config.region)
      && r.value.roleArn == TrimSpace(config.roleArn)
      && r.value.externalID == TrimSpace(config.externalID)
      && Normalized(r.value)
      && r.value.region in regions
    ensures r.Failure? ==>
      && r.error.region == TrimSpace(config.region)
      && (forall x :: x in r.error.supportedRegions <==> x in regions)
      && Distinct(r.error.supportedRegions)
      && |r.error.supportedRegions| == |regions|
  {
    var accCreds := NormalizedCredentials(config);
    if accCreds.region !in regions {
      var supportedRegions := RegionList(regions);
      return Failure(UnsupportedRegion(accCreds.region, supportedRegions));
    }
    return Success(accCreds);
  }

  /** Whether the credentials changed, as `compareAccountCredentials` decides it. */
  predicate CredentialsChanged(existing: AwsAccountCredentials, newCreds: AwsAccountCredentials) {
    || existing.accountID != newCreds.accountID
    || existing.accessKeyID != newCreds.accessKeyID
    || existing.accessKeySecret != newCreds.accessKeySecret
    || existing.region != newCreds.region
  }

  /** `compareAccountCredentials`: the flag, and the fields it reports as
      updated, in the order it checks them. */
  method CompareAccountCredentials(existing: AwsAccountCredentials, newCreds: AwsAccountCredentials)
    returns (credsChanged: bool, updatedFields: seq<CredentialField>)
    ensures credsChanged == CredentialsChanged(existing, newCreds)
    ensures credsChanged <==> updatedFields != []
    ensures forall f :: f in updatedFields <==> Field(existing, f) != Field(newCreds, f)
    ensures forall i, j :: 0 <= i < j < |updatedFields| ==> updatedFields[i] != updatedFields[j]
    ensures forall i, j :: 0 <= i < j < |updatedFields| ==>
              CheckPosition(updatedFields[i]) < CheckPosition(updatedFields[j])
  {
    credsChanged := false;
    updatedFields := [];
    if existing.accountID != newCreds.accountID {
      credsChanged := true;
      updatedFields := updatedFields + [AccountID];
    }
    if existing.accessKeyID != newCreds.accessKeyID {
      credsChanged := true;
      updatedFields := updatedFields + [AccessKeyID];
    }
    if existing.accessKeySecret != newCreds.accessKeySecret {
      credsChanged := true;
      updatedFields := updatedFields + [AccessKeySecret];
    }
    if existing.region != newCreds.region {
      credsChanged := true;
      updatedFields := updatedFields + [Region];
    }
  }

  /** Credentials are changed exactly when one of the four compared fields differs. */
  lemma CredentialsChangedIffFieldDiffers(existing: AwsAccountCredentials, newCreds: AwsAccountCredentials)
    ensures CredentialsChanged(existing, newCreds) <==> exists f :: Field(existing, f) != Field(newCreds, f)
  {
    if CredentialsChanged(existing, newCreds) {
      if existing.accountID != newCreds.accountID {
        assert Field(existing, AccountID) != Field(newCreds, AccountID);
      } else if existing.accessKeyID != newCreds.accessKeyID {
        assert Field(existing, AccessKeyID) != Field(newCreds, AccessKeyID);
      } else if existing.accessKeySecret != newCreds.accessKeySecret {
        assert Field(existing, AccessKeySecret) != Field(newCreds, AccessKeySecret);
      } else {
        assert Field(existing, Region) != Field(newCreds, Region);
      }
    }
  }

  lemma CredentialsChangedIrreflexive(c: AwsAccountCredentials)
    ensures !CredentialsChanged(c, c)
  {
  }

  lemma CredentialsChangedSymmetric(a: AwsAccountCredentials, b: AwsAccountCredentials)
    ensures CredentialsChanged(a, b) == CredentialsChanged(b, a)
  {
  }

  /** A new role ARN or external ID alone is not a change. */
  lemma RoleAndExternalIDIgnored(a: AwsAccountCredentials, roleArn: string, externalID: string)
    ensures !CredentialsChanged(a, a.(roleArn := roleArn, externalID := externalID))
  {
  }

  /** Every field of `config` is the corresponding field of `core` with white
      space added around it. */
  ghost predicate ConfigPaddingOf(config: AwsConfig, core: AwsConfig) {
    && PaddingOf(config.accountID, core.accountID)
    && PaddingOf(config.accessKeyID, core.accessKeyID)
    && PaddingOf(config.accessKeySecret, core.accessKeySecret)
    && PaddingOf(config.region, core.region)
    && PaddingOf(config.roleArn, core.roleArn)
    && PaddingOf(config.externalID, core.externalID)
  }

  /** Two configurations that differ only by white space around their fields
      normalise to the same credentials, which therefore compare unchanged. */
  lemma {:induction false} PaddedConfigsCompareUnchanged(a: AwsConfig, b: AwsConfig, core: AwsConfig)
    requires ConfigPaddingOf(a, core) && ConfigPaddingOf(b, core)
    ensures NormalizedCredentials(a) == NormalizedCredentials(b)
    ensures !CredentialsChanged(NormalizedCredentials(a), NormalizedCredentials(b))
  {
    TrimSpaceOfPaddingOf(a.accountID, core.accountID);
    TrimSpaceOfPaddingOf(b.accountID, core.accountID);
    TrimSpaceOfPaddingOf(a.accessKeyID, core.accessKeyID);
    TrimSpaceOfPaddingOf(b.accessKeyID, core.accessKeyID);
    TrimSpaceOfPaddingOf(a.accessKeySecret, core.accessKeySecret);
    TrimSpaceOfPaddingOf(b.accessKeySecret, core.accessKeySecret);
    TrimSpaceOfPaddingOf(a.region, core.region);
    TrimSpaceOfPaddingOf(b.region, core.region);
    TrimSpaceOfPaddingOf(a.roleArn, core.roleArn);
    TrimSpaceOfPaddingOf(b.roleArn, core.roleArn);
    TrimSpaceOfPaddingOf(a.externalID, core.externalID);
    TrimSpaceOfPaddingOf(b.externalID, core.externalID);
  }

  /** Normalising is idempotent: already trimmed credentials, fed back as a
      configuration, come out as they are. */
  lemma {:induction false} NormalizedCredentialsIdempotent(config: AwsConfig)
    ensures var c := NormalizedCredentials(config);
            NormalizedCredentials(AwsConfig(c.accountID, c.accessKeyID, c.accessKeySecret,
                                            c.region, c.roleArn, c.externalID)) == c
  {
    TrimSpaceIdempotent(config.accountID);
    TrimSpaceIdempotent(config.accessKeyID);
    TrimSpaceIdempotent(config.accessKeySecret);
    TrimSpaceIdempotent(config.region);
    TrimSpaceIdempotent(config.roleArn);
    TrimSpaceIdempotent(config.externalID);
  }

  /** `awsComputeServiceNameEC2`. */
  const ServiceNameEC2 := "EC2"

  /** The account's EC2 service config caches the VPC. */
  predicate AccountOwnsVpc(accCfg: CloudAccount<AwsAccountCredentials>, vpcID: string)
    reads set s | s in accCfg.serviceConfigs
  {
    var ec2 := ServiceConfigByName(accCfg.serviceConfigs, ServiceNameEC2);
    ec2.Some? && vpcID in ec2.value.cachedVpcIDs
  }

  /** The AWS plugin (`awsCloud`), as far as the VPC search uses it. */
  class AwsCloud {
    const cloudCommon: CloudCommon<AwsAccountCredentials>

    constructor (cloudCommon: CloudCommon<AwsAccountCredentials>)
      ensures this.cloudCommon == cloudCommon
    {
      this.cloudCommon := cloudCommon;
    }

    /** `getVpcAccount`: some registered account whose EC2 service config
        caches the lower-cased VPC ID, or None when there is none. Accounts
        without an EC2 service config, or with no cached VPC, are passed
        over. */
    method GetVpcAccount(vpcID: string) returns (r: Option<CloudAccount<AwsAccountCredentials>>)
      requires cloudCommon.Valid()
      ensures cloudCommon.accountConfigs == map[] ==> r.None?
      ensures r.Some? ==> r.value in cloudCommon.accountConfigs.Values && AccountOwnsVpc(r.value, ToLower(vpcID))
      ensures r.None? <==>
                forall k :: k in cloudCommon.accountConfigs ==>
                  !AccountOwnsVpc(cloudCommon.accountConfigs[k], ToLower(vpcID))
    {
      var accCfgs := cloudCommon.GetCloudAccounts();
      if |accCfgs| == 0 {
        return None;
      }
      var id := ToLower(vpcID);
      var remaining := accCfgs.Keys;
      while remaining != {}
        invariant remaining <= accCfgs.Keys
        invariant forall k :: k in accCfgs && k !in remaining ==> !AccountOwnsVpc(accCfgs[k], id)
        decreases remaining
      {
        var key :| key in remaining;
        remaining := remaining - {key};
        var accCfg := accCfgs[key];
        var ec2ServiceCfg := ServiceConfigByName(accCfg.serviceConfigs, ServiceNameEC2);
        if ec2ServiceCfg.None? {
          continue;
        }
        var accVpcIDs := ec2ServiceCfg.value.cachedVpcIDs;
        if |accVpcIDs| == 0 {
          continue;
        }
        if id in accVpcIDs {
          return Some(accCfg);
        }
      }
      return None;
    }
  }
}
