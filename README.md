# Registry-rewriting Pod webhook, modelled in Dafny

This project models the decision logic of a Kubernetes mutating admission
webhook. The webhook points every container image of a Pod at a target
registry, which the Pod's namespace chooses. It has two parts:

- `Registry` (`registry.dfy`) models `RewriteImage` from
  `internal/registry/rewriter.go`. This is a pure string function. It refuses
  an empty image, and then an empty target registry. It drops a leading
  registry segment: the text before the first `/`, when that text holds a
  `.` or a `:`. It appends `:latest` when what remains has neither a `:` nor
  an `@`. The result is the target registry, a `/` and that remainder.
- `PodWebhook` (`pod_webhook.dfy`) models `PodCustomDefaulter.Default` from
  `internal/webhook/v1/pod_webhook.go`. Three gates come first: the namespace
  was fetched, its label `registry-rewrite` is `enabled`, and its annotation
  `image-rewriter.example.com/target-registry` is present and non-empty.
  When all three pass, three loops rewrite the images of the regular, init
  and ephemeral containers in place. A container whose rewrite fails keeps
  its image, and the loop goes on. `Default` always returns no error for a
  Pod.

The Pod is a class with three `array<string>` fields, one image per
container. `Default` is a method whose postcondition ties the new images to
the pure function `Mutate` of the old images and the lookup result. The
properties of the policy are lemmas about `Mutate`. A namespace is the pair
of its label and annotation maps. Reading a missing label gives `""`, as
indexing a Go map does.

Strings are `seq<char>`. Go strings are byte sequences, but every character
the rewriter looks for (`/`, `.`, `:`, `@`) is ASCII. In UTF-8, an ASCII byte
never occurs inside a multi-byte character. So on valid UTF-8 input the
character-level model splits the text at the same places as the byte-level
source, even though character offsets and byte offsets differ.

## Model

| member | source | states |
|---|---|---|
| `Registry.IndexOf` | internal/registry/rewriter.go:24-25 | The position of the first occurrence of a character: every earlier character differs from it, and it is the length when the character does not occur. |
| `Registry.SplitFirstSlash` | internal/registry/rewriter.go:25 | `SplitN(s, "/", 2)` on a string that holds a `/`: the two parts joined by `/` give back the string, and the first part holds no `/`. |
| `Registry.DefaultTag` | internal/registry/rewriter.go:32-35 | After the default, the reference always carries a `:` or an `@`. |
| `Registry.RewriteImage` | internal/registry/rewriter.go:11-38 | An empty image yields the empty-image error for every target, including the empty one, so the image check comes first. A non-empty image with an empty target yields the empty-target error. The rewrite succeeds exactly when both inputs are non-empty. |
| `Registry.SplitFirstSlashOf` | internal/registry/rewriter.go:25 | The split is unique: a `/`-free host, a `/` and any rest split back into exactly that host and that rest. |
| `Registry.StripKnownRegistry` | internal/registry/rewriter.go:24-30 | A `/`-free first segment with a `.` or a `:` counts as a registry, and exactly the text after its `/` is kept. |
| `Registry.KeepPlainSegment` | internal/registry/rewriter.go:24-30 | A `/`-free first segment with neither `.` nor `:` does not count as a registry, and the whole image is kept. |
| `Registry.StrippingRule` | internal/registry/rewriter.go:24-30 | The image changes when stripped if and only if it holds a `/` and the text before the first `/` holds a `.` or a `:`. In that case exactly the text after the first `/` is kept. Otherwise the image is kept whole. |
| `Registry.ResultShape` | internal/registry/rewriter.go:37 | On success the result begins with the target and a `/`. The rest of the result is the stripped remainder, either as it is or followed by `:latest`. |
| `Registry.LatestDefault` | internal/registry/rewriter.go:33-35 | A remainder with neither `:` nor `@` gives exactly target + `/` + remainder + `:latest`. So the result ends with `:latest`. |
| `Registry.UntaggedImageGetsLatest` | internal/registry/rewriter.go:24-35 | An original image with neither `:` nor `@` anywhere gives target + `/` + remainder + `:latest`. So the result ends with `:latest`. |
| `Registry.TagOrDigestPreserved` | internal/registry/rewriter.go:33-37 | A remainder with a `:` or an `@` appears unchanged after target + `/`. An explicit tag or digest is never overwritten. |
| `Registry.TagSuffixPreserved` | internal/registry/rewriter.go:24-37 | Stated on the original image: a `:tag` or `@digest` suffix without a `/` ends the rewritten reference unchanged, whether or not a registry host was dropped. |
| `Registry.RewritesPlainName` | internal/registry/rewriter_test.go:29-43 | The concrete case of the test: `nginx` with target `target-registry.com` becomes `target-registry.com/nginx:latest`. |
| `Registry.ResultHasTagOrDigest` | internal/registry/rewriter.go:32-37 | Every successful result carries a tag or a digest after the target prefix. |
| `Registry.Idempotent` | internal/registry/rewriter.go:24-37 | Take a target with a `.` or a `:` and no `/`. Rewriting any successful output again with that target gives back the same string. |
| `Registry.NotIdempotentForPlainHost` | internal/registry/rewriter.go:24-37 | Take a target with no `.`, `:` or `/`. Rewriting any successful output again adds the target a second time, so the string always changes. |
| `PodWebhook.Policy` | internal/webhook/v1/pod_webhook.go:81-97 | A target is chosen exactly when the lookup succeeded, the label is `enabled` and the annotation gate passes. A chosen target is never empty. |
| `PodWebhook.RewriteCollection` | internal/webhook/v1/pod_webhook.go:100-107 | A collection keeps its length. Entry i becomes the rewrite of old entry i on success, and stays as it was on error. |
| `PodWebhook.RewriteImages` | internal/webhook/v1/pod_webhook.go:100-127 | The loop over one collection leaves the array equal to `RewriteCollection` of its old contents. |
| `PodWebhook.Default` | internal/webhook/v1/pod_webhook.go:72-130 | The result is always no error. The Pod's images become `Mutate` of the old images and the lookup result. Only the three image arrays are written. |
| `PodWebhook.LookupFailureLeavesPod` | internal/webhook/v1/pod_webhook.go:82-85 | A failed namespace lookup leaves every image unchanged. |
| `PodWebhook.LabelGate` | internal/webhook/v1/pod_webhook.go:88-90 | A missing label, or a label value other than `enabled`, chooses no target and leaves every image unchanged. |
| `PodWebhook.AnnotationGate` | internal/webhook/v1/pod_webhook.go:93-97 | A missing or empty target annotation chooses no target and leaves every image unchanged. |
| `PodWebhook.GatesPass` | internal/webhook/v1/pod_webhook.go:88-97 | With the label `enabled` and a non-empty annotation, the target is the annotation's value. |
| `PodWebhook.RewriteOnSuccess` | internal/webhook/v1/pod_webhook.go:100-127 | Past the gates, an entry in any of the three collections whose rewrite succeeds holds the rewritten image. The rewrite fails exactly for empty images, and those stay empty. |
| `PodWebhook.Locality` | internal/webhook/v1/pod_webhook.go:100-127 | Collection lengths never change. In each collection, the new image at a position depends only on the old image at that position. |
| `PodWebhook.ChangesOnlyWhenEnabled` | internal/webhook/v1/pod_webhook.go:82-97 | An image changes only when the lookup succeeded and both the label gate and the annotation gate passed. |
| `PodWebhook.CollectionIdempotent` | internal/webhook/v1/pod_webhook.go:100-107 | Rewriting a collection twice with a registry-like target gives the same result as rewriting it once. |
| `PodWebhook.MutateIdempotent` | internal/webhook/v1/pod_webhook.go:72-130 | Admitting a Pod a second time changes nothing when the target holds a `.` or a `:` and no `/`. |
| `PodWebhook.HandlesErrorsGracefully` | internal/webhook/v1/pod_webhook_unit_test.go:326-396 | A generalization of this test, over arbitrary non-empty images and target: the containers `[a, "", b]` and one init container `[c]` become their rewrites, the empty image stays empty, and no error is reported. |
| `PodWebhook.SkipsWhenNotEnabled` | internal/webhook/v1/pod_webhook_unit_test.go:19-116 | A namespace with neither labels nor annotations, one with the target annotation but no label, and one with the label but no annotation: each leaves the image unchanged, and no error is reported. |
| `PodWebhook.NamespaceNotFound` | internal/webhook/v1/pod_webhook_unit_test.go:398-437 | A namespace that cannot be fetched leaves the image unchanged, and no error is reported. |

## Left out

- The namespace fetch (`d.Client.Get`, internal/webhook/v1/pod_webhook.go:82) is Kubernetes API I/O. It is an input to the model: either a failed lookup or the namespace's label and annotation maps. So the Pod's namespace name plays no part.
- The runtime type check of the admitted object (internal/webhook/v1/pod_webhook.go:73-77) is not modelled. `Default` takes a `Pod`, so its only error path cannot occur.
- The log calls (`podlog`) are left out. They have no effect on the Pod or on the result.
- Webhook registration (`SetupPodWebhookWithManager`), the kubebuilder markers and the no-op `PodCustomValidator` are not part of this model. They are framework wiring and hold no decision logic.
- A container is reduced to its image. No other container field is read or written by the source.
- Of the literal examples of internal/registry/rewriter_test.go, only `nginx` is proved as a literal instance (`RewritesPlainName`). The others are instances of a general lemma or contract above: the contract of `RewriteImage` for the two error cases, and `LatestDefault`, `UntaggedImageGetsLatest`, `TagOrDigestPreserved`, `TagSuffixPreserved`, `StripKnownRegistry` and `Idempotent` for the rest. Their literal instances are not checked, because on the longer literals (a digest, a host with a port, a multi-segment path) the proof exceeds the solver's resource bound.
- Go strings may hold bytes that are not valid UTF-8, which `seq<char>` cannot represent. Such images are out of scope.
- `Pod.Valid` assumes the three container collections share no storage. In Go, two slices could share a backing array, and the init-container loop would then rewrite shared entries a second time. The admitted Pod is decoded afresh, so this does not arise, but the model does not capture aliasing between the collections.
