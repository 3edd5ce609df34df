# Cloud-account registry and AWS account management, in Dafny

This project models two pieces of the cloud-provider layer written in Go.

The first is the provider-independent account registry, `cloudCommon`, in
`pkg/cloud-provider/cloudapi/internal/cloud_common.go`. It is a table from an
account's (namespace, name) key to its account config. The model covers
adding, updating, removing and looking up accounts. It also covers attaching
and removing selectors, reading an account's status, and collecting compute
inventory (virtual machines and network interfaces). That inventory is
collected over one account's service configs, or over all accounts.

The second is the AWS adapter's account management, in
`pkg/cloud-provider/cloudapi/aws/aws_account_mgmt.go`. It covers normalising
and validating the configured credentials, and deciding whether a
re-registration changed them. It also covers finding the account whose EC2
cache holds a VPC.

Files:

- `wrappers.dfy`: `Option` and `Result`, for Go's `(value, found)` and
  `(value, error)` returns.
- `text.dfy`: Go's `strings.TrimSpace`, using `unicode.IsSpace` as the set of
  white-space code points. It also holds `strings.ToLower`, restricted to
  ASCII letters. The file fully characterises `TrimSpace`: white space around
  a string that is itself trimmed is exactly what `TrimSpace` removes.
- `internal.dfy`: the registry as a class `CloudCommon<C>`, where `C` is the
  provider's credentials type. Account configs are objects of class
  `CloudAccount<C>` and service configs are objects of class `ServiceConfig`.
  Methods change these objects in place and their frames say which objects
  they may touch.
- `aws.dfy`: the AWS credentials, their validation and comparison, and
  `getVpcAccount` as a search loop over the registry's table.

Several collaborators of the registry are defined outside the modelled files:
`newCloudAccountConfig`, `updateCloudAccountConfig`, the credential validator
and comparator, the service-config factory, `startPeriodicInventorySync`,
`stopPeriodicInventorySync`, `setResourceFilters`, `getResourceCRDs`,
`GetServiceConfigByName` and `getCachedVpcIDs`. Each of them enters the model
in one of two ways:

- what it returns becomes a parameter (`validated`, `services`, `changed`,
  `syncFailure`);
- the state it changes is a field of the object it acts on (`credentials`,
  `syncRunning`, `filter`, the caches).

Go iterates maps in an unspecified order. Where the Go code ranges over the
account map, the model picks an arbitrary remaining key on each step.
`GetAllCloudAccountsComputeResourceCRDs` returns the order it visited as a
ghost out-parameter, so its result can be stated against that order.

## Model

| member | source | states |
|---|---|---|
| `Text.FirstNonSpace` | pkg/cloud-provider/cloudapi/aws/aws_account_mgmt.go:40-45 | the forward scan of trimming stops at the first character that is not white space, or at the end |
| `Text.EndOfNonSpace` | pkg/cloud-provider/cloudapi/aws/aws_account_mgmt.go:40-45 | the backward scan of trimming stops just after the last character that is not white space, or at its lower bound |
| `Text.TrimSpace` | pkg/cloud-provider/cloudapi/aws/aws_account_mgmt.go:40-45 | the result of trimming never starts or ends with white space and is no longer than the input |
| `Text.TrimSpaceOfPadded` | pkg/cloud-provider/cloudapi/aws/aws_account_mgmt.go:40-45 | if a trimmed string is surrounded by any white space on either side, trimming the whole gives back exactly that string |
| `Text.TrimSpaceSplit` | pkg/cloud-provider/cloudapi/aws/aws_account_mgmt.go:40-45 | what trimming drops from either end is white space: the input is white space + result + white space |
| `Text.TrimSpaceIdempotent` | pkg/cloud-provider/cloudapi/aws/aws_account_mgmt.go:40-45 | trimming twice is trimming once |
| `Text.TrimSpaceIgnoresPadding` | pkg/cloud-provider/cloudapi/aws/aws_account_mgmt.go:40-45 | adding white space around a string does not change its trimmed form |
| `Text.TrimSpaceOfPaddingOf` | pkg/cloud-provider/cloudapi/aws/aws_account_mgmt.go:40-45 | the same for a string known only to be some padding of another: both trim to the same result |
| `Text.ToLower` | pkg/cloud-provider/cloudapi/aws/aws_account_mgmt.go:105 | the lower-cased string has the same length, contains no ASCII upper-case letter and agrees with the input up to case at every position; a string without upper-case letters is its own lower-case form |
| `Text.ToLowerEqualIff` | pkg/cloud-provider/cloudapi/aws/aws_account_mgmt.go:105 | two strings lower-case to the same string exactly when they have the same length and agree up to ASCII case at every position, which is the case-insensitive match a lower-cased VPC ID lookup depends on |
| `Text.ToLowerIdempotent` | pkg/cloud-provider/cloudapi/aws/aws_account_mgmt.go:105 | lower-casing twice is lower-casing once |
| `Internal.ServiceConfig.SetResourceFilters` | pkg/cloud-provider/cloudapi/internal/cloud_common.go:182 | setting the resource filter stores the selector and changes no other field |
| `Internal.ServiceConfig.GetResourceCRDs` | pkg/cloud-provider/cloudapi/internal/cloud_common.go:145 | every returned record lies in the requested namespace and stands for a resource in the service config's cache |
| `Internal.ServiceConfigByName` | pkg/cloud-provider/cloudapi/aws/aws_account_mgmt.go:95 | a found service config belongs to the account, has the requested name and no earlier service config has that name; the lookup fails exactly when no service config has that name |
| `Internal.CloudAccount.StartPeriodicInventorySync` | pkg/cloud-provider/cloudapi/internal/cloud_common.go:185 | the scheduler's error is passed through; when the start succeeds sync is running, and a second start leaves it running |
| `Internal.CloudAccount.StopPeriodicInventorySync` | pkg/cloud-provider/cloudapi/internal/cloud_common.go:200 | afterwards sync is stopped, whatever its state was before |
| `Internal.CloudAccount.UpdateCredentials` | pkg/cloud-provider/cloudapi/internal/cloud_common.go:87 | a validation error is returned and changes nothing; valid new credentials replace the stored ones exactly when the comparator reports a change |
| `Internal.ComputeCRDsMembership` | pkg/cloud-provider/cloudapi/internal/cloud_common.go:140-149 | a record is in an account's compute answer exactly when it lies in the account's namespace and a compute-type service config caches the resource it stands for; non-compute service configs add nothing |
| `Internal.CloudCommon.constructor` | pkg/cloud-provider/cloudapi/internal/cloud_common.go:66-74 | a new registry has no accounts |
| `Internal.CloudCommon.AllComputeCRDsMembership` | pkg/cloud-provider/cloudapi/internal/cloud_common.go:157-173 | a record is in the all-accounts answer exactly when it is in the answer of one of the visited accounts, whatever the visiting order |
| `Internal.CloudCommon.NewCloudAccountConfig` | pkg/cloud-provider/cloudapi/internal/cloud_common.go:90-91 | a validation or factory error is returned as it is; otherwise the new account config is freshly allocated under the given key, holds the validated credentials and one fresh unfiltered service config per requested service, and its sync is stopped |
| `Internal.CloudCommon.AddCloudAccount` | pkg/cloud-provider/cloudapi/internal/cloud_common.go:76-99 | a known key leaves the table as it is and returns the update path's result, changing only that account's credentials; a failed construction returns its error and leaves the table as it is; otherwise exactly the new key is added, every other entry is kept, and the new entry is fresh, holds the validated credentials and poll interval, is not syncing, and has one fresh, unfiltered service config per requested service, with its name and type |
| `Internal.CloudCommon.DeleteCloudAccount` | pkg/cloud-provider/cloudapi/internal/cloud_common.go:101-106 | the table afterwards is the old table without the key |
| `Internal.CloudCommon.RemoveCloudAccount` | pkg/cloud-provider/cloudapi/internal/cloud_common.go:108-115 | an absent key leaves the table as it is; a present key is deleted, the size drops by one, and every other entry is kept |
| `Internal.CloudCommon.GetCloudAccountByName` | pkg/cloud-provider/cloudapi/internal/cloud_common.go:117-123 | the lookup succeeds exactly for a registered key and returns the account stored under it, whose own key is the one asked for |
| `Internal.CloudCommon.GetCloudAccounts` | pkg/cloud-provider/cloudapi/internal/cloud_common.go:125-130 | the result equals the table at the time of the call, and every entry is stored under its own key |
| `Internal.CloudCommon.GetCloudAccountComputeResourceCRDs` | pkg/cloud-provider/cloudapi/internal/cloud_common.go:132-155 | an unknown key is an account-not-found error; for a known key the answer is the concatenation, in service-config order, of the records of its compute-type service configs |
| `Internal.CloudCommon.GetAllCloudAccountsComputeResourceCRDs` | pkg/cloud-provider/cloudapi/internal/cloud_common.go:157-173 | every registered account is visited exactly once; the answer is the concatenation of the per-account answers in visiting order; a record is in it exactly when it is in some visited account's answer; no error is collected, because every visited key comes from the table |
| `Internal.CloudCommon.AddSelector` | pkg/cloud-provider/cloudapi/internal/cloud_common.go:175-191 | an unknown key is an account-not-found error and nothing is touched; for a known key every service config of that account gets the selector, and sync is running afterwards, unless the start fails, in which case the failure is reported as an inventory-sync error for that account |
| `Internal.CloudCommon.RemoveSelector` | pkg/cloud-provider/cloudapi/internal/cloud_common.go:193-201 | for a known key the account's sync is stopped, whatever the selector name; an unknown key changes nothing |
| `Internal.CloudCommon.GetStatus` | pkg/cloud-provider/cloudapi/internal/cloud_common.go:203-210 | the call fails exactly for an unknown key, with an account-not-found error; otherwise it returns that account's status |
| `Aws.NormalizedCredentials` | pkg/cloud-provider/cloudapi/aws/aws_account_mgmt.go:39-46 | no field of the normalised credentials starts or ends with white space |
| `Aws.RegionList` | pkg/cloud-provider/cloudapi/aws/aws_account_mgmt.go:53-56 | the list holds every key of the region table, each exactly once, and nothing else |
| `Aws.SetAccountCredentials` | pkg/cloud-provider/cloudapi/aws/aws_account_mgmt.go:37-61 | the call succeeds exactly when the trimmed region is supported; on success every field is the trimmed input field and the stored region is supported; on failure the error carries the trimmed region and lists every supported region exactly once |
| `Aws.CompareAccountCredentials` | pkg/cloud-provider/cloudapi/aws/aws_account_mgmt.go:63-85 | the flag is set exactly when the account ID, access key ID, secret or region differ; the fields reported as updated are exactly the differing ones, each once, in the order account ID, access key ID, secret, region |
| `Aws.CredentialsChangedIffFieldDiffers` | pkg/cloud-provider/cloudapi/aws/aws_account_mgmt.go:67-84 | a change is reported exactly when one of the four compared fields differs |
| `Aws.CredentialsChangedIrreflexive` | pkg/cloud-provider/cloudapi/aws/aws_account_mgmt.go:63-85 | comparing credentials with themselves reports no change |
| `Aws.CredentialsChangedSymmetric` | pkg/cloud-provider/cloudapi/aws/aws_account_mgmt.go:63-85 | the comparison gives the same answer in either argument order |
| `Aws.RoleAndExternalIDIgnored` | pkg/cloud-provider/cloudapi/aws/aws_account_mgmt.go:63-85 | a different role ARN or external ID alone is not reported as a change |
| `Aws.PaddedConfigsCompareUnchanged` | pkg/cloud-provider/cloudapi/aws/aws_account_mgmt.go:39-85 | two configurations that differ only by white space around their fields normalise to the same credentials, which compare unchanged |
| `Aws.NormalizedCredentialsIdempotent` | pkg/cloud-provider/cloudapi/aws/aws_account_mgmt.go:39-46 | normalising already normalised credentials changes nothing |
| `Aws.AwsCloud.GetVpcAccount` | pkg/cloud-provider/cloudapi/aws/aws_account_mgmt.go:88-111 | an empty registry gives None; a result is a registered account whose EC2 service config caches the lower-cased VPC ID; None is returned exactly when no registered account does; accounts without an EC2 service config, or with an empty VPC cache, are passed over |

## Removing an account

`RemoveCloudAccount` (cloud_common.go:108-115) only deletes the table entry.
It does not stop the account's periodic sync. The model follows the code:
`RemoveCloudAccount` may change only the table, so the removed account's sync
state stays as it was.

## Left out

- Locking (`sync.Mutex`): the operations are modelled as sequential methods. Interleavings, such as a sync tick racing with a removal, are not modelled.
- Internal.CloudCommon.GetAllCloudAccountsComputeResourceCRDs: a per-account failure, which could only arise if another goroutine removed an account during the loop, cannot happen in the sequential model. The error branch is modelled, but no input reaches it, so `errs` is always empty.
- Logging (`c.logger()`, `awsPluginLogger()`) and the text of `fmt.Errorf` and `multierr` errors: errors are datatype values, and the combined error is a list of failures. `CompareAccountCredentials` returns the fields it would log as updated, not the log text, and it drops the account-name argument, which is used only in log lines.
- The AWS region table, `endpoints.AwsPartition().Regions()`: it is the parameter `regions` of `SetAccountCredentials`.
- `newCloudAccountConfig`, `updateCloudAccountConfig`, the credential validator, comparator and service-config factory: their code is not part of this model. They appear through their outcomes (`validated`, `services` and `changed` in `AddCloudAccount`).
- Internal.CloudAccount.UpdateCredentials: `updateCloudAccountConfig` is defined outside cloud_common.go, so the model assumes the update path validates, compares, then replaces the credentials on a change.
- `startPeriodicInventorySync` and `stopPeriodicInventorySync`: the scheduler is not modelled. Its effect is the `syncRunning` flag. A start's failure is the parameter `syncFailure`, and a failed start leaves the flag as it was.
- `setResourceFilters`, `getResourceCRDs`, `GetServiceConfigByName` and `getCachedVpcIDs`: their code is not part of this model. Each is modelled by its visible effect:
  - `setResourceFilters` stores the selector;
  - `getResourceCRDs` gives one record per cached resource, in the requested namespace;
  - `GetServiceConfigByName` returns the first service config with the given name;
  - `getCachedVpcIDs` reads a cached set.
- The value of `awsComputeServiceNameEC2` is defined elsewhere in the aws package; the model uses `"EC2"`.
- Refreshing the caches (periodic sync ticks) and translating each provider's responses into records: the caches are fields whose contents the model takes as given.
- The CRD types (`VirtualMachine`, `NetworkInterface`, `CloudEntitySelector`, `CloudProviderAccountStatus`): they are reduced to small records.
- The `interface{}` type assertions in both files: the model uses typed parameters instead. The `time.Duration` conversion of the poll interval is also left out: the interval is kept in seconds.
- Internal.CloudCommon.GetCloudAccounts: Go returns the registry's own map, so the caller and the registry share it: later registry changes show through it and writes through it change the registry, bypassing the lock. A Dafny map is a value, so the model returns a snapshot and this aliasing is not captured.
- Text.ToLower: only ASCII letters are lower-cased, because Unicode case mapping is not modelled. VPC identifiers are ASCII.
- Text.TrimSpace: Go strings are byte sequences, but the model works on sequences of code points, so invalid UTF-8 is not modelled.
- `pkg/cloud-provider/cloudapi/azure/azure_services-mock_test.go`: generated test mocks with no logic of their own.
