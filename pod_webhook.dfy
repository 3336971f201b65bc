/** The mutating admission policy for Pods (internal/webhook/v1/pod_webhook.go):
    three namespace gates, then an in-place rewrite of every container image
    of the Pod, one container at a time, where a container whose image
    cannot be rewritten keeps it. The namespace lookup, which is an API call
    in the source, is an input here. */
module PodWebhook {
  import opened Registry

  /** The namespace label that opts a namespace in, its required value, and
      the namespace annotation that names the target registry. */
  const LabelRegistryRewrite: string := "registry-rewrite"
  const LabelValueEnabled: string := "enabled"
  const AnnotationTargetRegistry: string := "image-rewriter.example.com/target-registry"

  datatype Option<T> = None | Some(value: T)

  /** The part of a Namespace the policy reads. */
  datatype Namespace = Namespace(labels: map<string, string>, annotations: map<string, string>)

  /** The outcome of fetching the Pod's namespace: a failure of any kind
      (not found, I/O, cancellation) or the namespace. */
  datatype NamespaceLookup = LookupFailed | Found(namespace: Namespace)

  /** Indexing a Go map: a missing key reads as the zero value "". */
  function Get(m: map<string, string>, key: string): string {
    if key in m then m[key] else ""
  }

  /** Gate 2: the namespace carries registry-rewrite=enabled. */
  predicate RewriteEnabled(ns: Namespace) {
    Get(ns.labels, LabelRegistryRewrite) == LabelValueEnabled
  }

  /** Gate 3: the target registry annotation, when present and non-empty. */
  function TargetRegistry(ns: Namespace): Option<string> {
    if AnnotationTargetRegistry in ns.annotations && ns.annotations[AnnotationTargetRegistry] != "" then
      Some(ns.annotations[AnnotationTargetRegistry])
    else
      None
  }

  /** The whole gate sequence: the target registry to rewrite to, or None
      when any gate closes and the Pod is to be left alone. */
  function Policy(lookup: NamespaceLookup): (target: Option<string>)
    ensures target.Some? <==>
            lookup.Found? && RewriteEnabled(lookup.namespace) && TargetRegistry(lookup.namespace).Some?
    ensures target.Some? ==> target.value != ""
  {
    match lookup
    case LookupFailed => None
    case Found(ns) => if RewriteEnabled(ns) then TargetRegistry(ns) else None
  }

  /** The image a container ends up with: the rewritten reference, or the
      original one when the rewrite reports an error. */
  function RewrittenImage(image: string, target: string): string {
    match RewriteImage(image, target)
    case Ok(rewritten) => rewritten
    case Err(_) => image
  }

  /** One container collection after the rewrite loop, as a value: each
      entry is rewritten on its own, in place, in order. */
  function RewriteCollection(images: seq<string>, target: string): (r: seq<string>)
    ensures |r| == |images|
    ensures forall i :: 0 <= i < |images| ==> r[i] == RewrittenImage(images[i], target)
  {
    if images == [] then []
    else [RewrittenImage(images[0], target)] + RewriteCollection(images[1..], target)
  }

  /** The images of the three container collections of a Pod spec. */
  datatype PodImages = PodImages(containers: seq<string>,
                                 initContainers: seq<string>,
                                 ephemeralContainers: seq<string>)

  /** The effect of Default on a Pod's images, as a function. */
  function Mutate(pod: PodImages, lookup: NamespaceLookup): PodImages {
    match Policy(lookup)
    case None => pod
    case Some(target) =>
      PodImages(RewriteCollection(pod.containers, target),
                RewriteCollection(pod.initContainers, target),
                RewriteCollection(pod.ephemeralContainers, target))
  }

  /** A Pod as the webhook sees it: three ordered container collections,
      each entry reduced to its image field. */
  class Pod {
    var containers: array<string>
    var initContainers: array<string>
    var ephemeralContainers: array<string>

    /** The three collections occupy separate storage. The admitted Pod is
        decoded afresh, so its container lists share no backing array. */
    ghost predicate Valid()
      reads this
    {
      containers != initContainers &&
      containers != ephemeralContainers &&
      initContainers != ephemeralContainers
    }

    function Images(): PodImages
      reads this, containers, initContainers, ephemeralContainers
    {
      PodImages(containers[..], initContainers[..], ephemeralContainers[..])
    }

    constructor (containers: seq<string>, initContainers: seq<string>, ephemeralContainers: seq<string>)
      ensures Valid()
      ensures Images() == PodImages(containers, initContainers, ephemeralContainers)
      ensures fresh(this.containers) && fresh(this.initContainers) && fresh(this.ephemeralContainers)
    {
      this.containers := new string[|containers|](i requires 0 <= i < |containers| => containers[i]);
      this.initContainers := new string[|initContainers|](i requires 0 <= i < |initContainers| => initContainers[i]);
      this.ephemeralContainers :=
        new string[|ephemeralContainers|](i requires 0 <= i < |ephemeralContainers| => ephemeralContainers[i]);
    }
  }

  /** One of the three loops of Default: rewrite each image of a collection
      in place; a failed rewrite leaves that entry and goes on. */
  method RewriteImages(images: array<string>, target: string)
    modifies images
    ensures images[..] == RewriteCollection(old(images[..]), target)
  {
    for i := 0 to images.Length
      invariant forall k :: 0 <= k < i ==> images[k] == RewrittenImage(old(images[k]), target)
      invariant forall k :: i <= k < images.Length ==> images[k] == old(images[k])
    {
      var rewritten := RewriteImage(images[i], target);
      if rewritten.Err? {
        continue;
      }
      images[i] := rewritten.value;
    }
  }

  /** PodCustomDefaulter.Default: the Pod-typed entry point. It always
      returns no error, and changes the Pod's images exactly as Mutate says:
      not at all when a gate closes, and otherwise container by container. */
  method Default(pod: Pod, lookup: NamespaceLookup) returns (err: Option<string>)
    requires pod.Valid()
    modifies pod.containers, pod.initContainers, pod.ephemeralContainers
    ensures err == None
    ensures pod.Images() == Mutate(old(pod.Images()), lookup)
  {
    if lookup.LookupFailed? {
      return None;
    }
    var ns := lookup.namespace;
    if Get(ns.labels, LabelRegistryRewrite) != LabelValueEnabled {
      return None;
    }
    var present := AnnotationTargetRegistry in ns.annotations;
    var targetRegistry := Get(ns.annotations, AnnotationTargetRegistry);
    if !present || targetRegistry == "" {
      return None;
    }
    RewriteImages(pod.containers, targetRegistry);
    RewriteImages(pod.initContainers, targetRegistry);
    RewriteImages(pod.ephemeralContainers, targetRegistry);
    return None;
  }

  // ---------------------------------------------------------------------
  // Properties of the policy

  /** A failed namespace lookup leaves every image of the Pod as it was. */
  lemma LookupFailureLeavesPod(pod: PodImages)
    ensures Mutate(pod, LookupFailed) == pod
  {
  }

  /** Without the label registry-rewrite, or with any value other than
      "enabled", no image changes, whatever the annotations say. */
  lemma LabelGate(pod: PodImages, ns: Namespace)
    requires LabelRegistryRewrite !in ns.labels || ns.labels[LabelRegistryRewrite] != LabelValueEnabled
    ensures Policy(Found(ns)) == None
    ensures Mutate(pod, Found(ns)) == pod
  {
  }

  /** With the label but without a non-empty target registry annotation,
      no image changes. */
  lemma AnnotationGate(pod: PodImages, ns: Namespace)
    requires AnnotationTargetRegistry !in ns.annotations || ns.annotations[AnnotationTargetRegistry] == ""
    ensures Policy(Found(ns)) == None
    ensures Mutate(pod, Found(ns)) == pod
  {
  }

  /** When every gate passes, the target is the annotation's value. */
  lemma GatesPass(ns: Namespace)
    requires LabelRegistryRewrite in ns.labels && ns.labels[LabelRegistryRewrite] == LabelValueEnabled
    requires AnnotationTargetRegistry in ns.annotations && ns.annotations[AnnotationTargetRegistry] != ""
    ensures Policy(Found(ns)) == Some(ns.annotations[AnnotationTargetRegistry])
  {
  }

  /** Past the gates, in each of the three collections, every container
      whose rewrite succeeds ends with the rewritten image, and every
      container whose rewrite fails keeps its image. Failures happen
      exactly for empty images, since the target is non-empty. */
  lemma {:induction false} RewriteOnSuccess(pod: PodImages, lookup: NamespaceLookup, i: nat)
    requires Policy(lookup).Some?
    ensures var target := Policy(lookup).value;
            var after := Mutate(pod, lookup);
            (i < |pod.containers| ==>
               CollectionEntry(pod.containers[i], after.containers[i], target)) &&
            (i < |pod.initContainers| ==>
               CollectionEntry(pod.initContainers[i], after.initContainers[i], target)) &&
            (i < |pod.ephemeralContainers| ==>
               CollectionEntry(pod.ephemeralContainers[i], after.ephemeralContainers[i], target))
  {
    var target := Policy(lookup).value;
    if i < |pod.containers| { EntryOutcome(pod.containers[i], target); }
    if i < |pod.initContainers| { EntryOutcome(pod.initContainers[i], target); }
    if i < |pod.ephemeralContainers| { EntryOutcome(pod.ephemeralContainers[i], target); }
  }

  /** What the loop leaves in one entry, in terms of the rewriter alone. */
  ghost predicate CollectionEntry(before: string, after: string, target: string) {
    (RewriteImage(before, target).Ok? ==> after == RewriteImage(before, target).value) &&
    (RewriteImage(before, target).Err? <==> before == "") &&
    (before == "" ==> after == "")
  }

  lemma EntryOutcome(image: string, target: string)
    requires target != ""
    ensures CollectionEntry(image, RewrittenImage(image, target), target)
  {
  }

  /** Nothing but images changes: every collection keeps its length and
      order, and each new image depends only on that container's old image
      and the target, so one failing container affects no other entry of
      its own collection or of the other two. */
  lemma Locality(p: PodImages, q: PodImages, lookup: NamespaceLookup, i: nat)
    ensures |Mutate(p, lookup).containers| == |p.containers|
    ensures |Mutate(p, lookup).initContainers| == |p.initContainers|
    ensures |Mutate(p, lookup).ephemeralContainers| == |p.ephemeralContainers|
    ensures i < |p.containers| && i < |q.containers| && p.containers[i] == q.containers[i] ==>
            Mutate(p, lookup).containers[i] == Mutate(q, lookup).containers[i]
    ensures i < |p.initContainers| && i < |q.initContainers| && p.initContainers[i] == q.initContainers[i] ==>
            Mutate(p, lookup).initContainers[i] == Mutate(q, lookup).initContainers[i]
    ensures i < |p.ephemeralContainers| && i < |q.ephemeralContainers| &&
            p.ephemeralContainers[i] == q.ephemeralContainers[i] ==>
            Mutate(p, lookup).ephemeralContainers[i] == Mutate(q, lookup).ephemeralContainers[i]
  {
  }

  /** An image changes only when every gate passed. */
  lemma ChangesOnlyWhenEnabled(pod: PodImages, lookup: NamespaceLookup)
    requires Mutate(pod, lookup) != pod
    ensures lookup.Found? && RewriteEnabled(lookup.namespace)
    ensures TargetRegistry(lookup.namespace).Some?
  {
  }

  /** A Pod admitted a second time (the webhook also runs on update) is
      left as it is, when the target registry is detected as a registry
      host: it holds '.' or ':' and no '/'. */
  lemma {:induction false} MutateIdempotent(pod: PodImages, lookup: NamespaceLookup)
    requires Policy(lookup).Some? ==>
             LooksLikeRegistry(Policy(lookup).value) && '/' !in Policy(lookup).value
    ensures Mutate(Mutate(pod, lookup), lookup) == Mutate(pod, lookup)
  {
    if Policy(lookup).Some? {
      var target := Policy(lookup).value;
      CollectionIdempotent(pod.containers, target);
      CollectionIdempotent(pod.initContainers, target);
      CollectionIdempotent(pod.ephemeralContainers, target);
    }
  }

  lemma {:induction false} CollectionIdempotent(images: seq<string>, target: string)
    requires LooksLikeRegistry(target) && '/' !in target
    ensures RewriteCollection(RewriteCollection(images, target), target) == RewriteCollection(images, target)
  {
    var once := RewriteCollection(images, target);
    var twice := RewriteCollection(once, target);
    forall i | 0 <= i < |images|
      ensures twice[i] == once[i]
    {
      if RewriteImage(images[i], target).Ok? {
        Idempotent(images[i], target);
      }
    }
  }

  // ---------------------------------------------------------------------
  // Scenarios of pod_webhook_unit_test.go, over arbitrary image strings

  /** A namespace that passes every gate with the given target registry. */
  function EnabledNamespace(target: string): Namespace {
    Namespace(map[LabelRegistryRewrite := LabelValueEnabled], map[AnnotationTargetRegistry := target])
  }

  /** A generalization of the error-handling test: the regular containers
      `[a, "", b]` and one init container `[c]`. Every non-empty image is
      rewritten, the empty image in the middle is left empty, and Default
      reports no error. */
  method HandlesErrorsGracefully(a: string, b: string, c: string, target: string)
    returns (after: PodImages, err: Option<string>)
    requires a != "" && b != "" && c != "" && target != ""
    ensures err == None
    ensures after == PodImages([RewriteImage(a, target).value, "", RewriteImage(b, target).value],
                               [RewriteImage(c, target).value],
                               [])
  {
    var pod := new Pod([a, "", b], [c], []);
    var ns := EnabledNamespace(target);
    assert Policy(Found(ns)) == Some(target);
    err := Default(pod, Found(ns));
    after := pod.Images();
    var containers := RewriteCollection([a, "", b], target);
    assert containers == [RewrittenImage(a, target), RewrittenImage("", target), RewrittenImage(b, target)];
  }

  /** A namespace with neither labels nor annotations, one with the target
      annotation but without the label, and one with the label but without
      the annotation: each time Default reports no error and the image stays
      as it was. */
  method SkipsWhenNotEnabled(image: string, target: string)
    returns (noLabel: PodImages, noLabelErr: Option<string>,
             annotatedNoLabel: PodImages, annotatedNoLabelErr: Option<string>,
             noAnnotation: PodImages, noAnnotationErr: Option<string>)
    ensures noLabelErr == None && annotatedNoLabelErr == None && noAnnotationErr == None
    ensures noLabel == annotatedNoLabel == noAnnotation == PodImages([image], [], [])
  {
    var pod := new Pod([image], [], []);
    noLabelErr := Default(pod, Found(Namespace(map[], map[])));
    noLabel := pod.Images();
    pod := new Pod([image], [], []);
    annotatedNoLabelErr := Default(pod, Found(Namespace(map[], map[AnnotationTargetRegistry := target])));
    annotatedNoLabel := pod.Images();
    pod := new Pod([image], [], []);
    noAnnotationErr := Default(pod, Found(Namespace(map[LabelRegistryRewrite := LabelValueEnabled], map[])));
    noAnnotation := pod.Images();
  }

  /** A namespace that cannot be fetched: no error, and the image stays. */
  method NamespaceNotFound(image: string) returns (after: PodImages, err: Option<string>)
    ensures err == None
    ensures after == PodImages([image], [], [])
  {
    var pod := new Pod([image], [], []);
    err := Default(pod, LookupFailed);
    after := pod.Images();
  }
}
