/** Promotion edges and the image references the signer works on. */
module Refs {

  datatype Option<T> = None | Some(value: T)

  /** The registry side of an edge; only its name takes part in a reference. */
  datatype RegistryContext = RegistryContext(name: string)

  /** An image name and the tag it is promoted under. */
  datatype ImageTag = ImageTag(name: string, tag: string)

  /** One image move from a staging location to a production location.
      There is a single digest for both ends: promotion never changes the
      content of an image, only where it lives. */
  datatype PromotionEdge = PromotionEdge(
    srcRegistry: RegistryContext,
    srcImageTag: ImageTag,
    dstRegistry: RegistryContext,
    dstImageTag: ImageTag,
    digest: string)

  /** The reference `registry/image@digest` that names an image by content. */
  function ImageRef(registry: string, image: string, digest: string): string
  {
    registry + "/" + image + "@" + digest
  }

  /** The part of a reference before the `@`: `registry/image`. */
  function Location(registry: string, image: string): string
  {
    registry + "/" + image
  }

  /** The staging reference of an edge, checked before promotion. */
  function SrcRef(edge: PromotionEdge): string
  {
    ImageRef(edge.srcRegistry.name, edge.srcImageTag.name, edge.digest)
  }

  /** The production reference of an edge, signed after promotion. */
  function DstRef(edge: PromotionEdge): string
  {
    ImageRef(edge.dstRegistry.name, edge.dstImageTag.name, edge.digest)
  }

  /** Splits a reference at its last `@` into location and digest; the
      inverse of ImageRef for digests without an `@` (such as `sha256:…`). */
  function SplitDigest(ref: string): (r: Option<(string, string)>)
    ensures r.None? <==> '@' !in ref
    ensures r.Some? ==> r.value.0 + "@" + r.value.1 == ref && '@' !in r.value.1
  {
    if |ref| == 0 then None
    else
      var init, last := ref[..|ref| - 1], ref[|ref| - 1];
      assert ref == init + [last];
      if last == '@' then Some((init, ""))
      else
        match SplitDigest(init)
        case None => None
        case Some((location, digest)) => Some((location, digest + [last]))
  }

  /** Splitting `location@digest` gives back exactly location and digest. */
  lemma {:induction false} SplitDigestOf(location: string, digest: string)
    requires '@' !in digest
    ensures SplitDigest(location + "@" + digest) == Some((location, digest))
  {
    var ref := location + "@" + digest;
    if digest == [] {
      assert ref[..|ref| - 1] == location;
    } else {
      var init := digest[..|digest| - 1];
      assert ref[..|ref| - 1] == location + "@" + init;
      assert ref[|ref| - 1] == digest[|digest| - 1];
      SplitDigestOf(location, init);
      assert init + [digest[|digest| - 1]] == digest;
    }
  }

  /** The reference format round-trips: the digest and the `registry/image`
      location can be recovered from every reference this core builds. */
  lemma ImageRefRoundTrip(registry: string, image: string, digest: string)
    requires '@' !in digest
    ensures SplitDigest(ImageRef(registry, image, digest)) == Some((Location(registry, image), digest))
  {
    assert ImageRef(registry, image, digest) == Location(registry, image) + "@" + digest;
    SplitDigestOf(Location(registry, image), digest);
  }

  /** An edge that moves an image to a different location signs a different
      reference from the one validated at staging. */
  lemma SourceAndDestinationRefsDiffer(edge: PromotionEdge)
    requires Location(edge.srcRegistry.name, edge.srcImageTag.name)
          != Location(edge.dstRegistry.name, edge.dstImageTag.name)
    ensures SrcRef(edge) != DstRef(edge)
  {
    var src := Location(edge.srcRegistry.name, edge.srcImageTag.name);
    var dst := Location(edge.dstRegistry.name, edge.dstImageTag.name);
    var tail := "@" + edge.digest;
    assert SrcRef(edge) == src + tail && DstRef(edge) == dst + tail;
    if |src| == |dst| {
      var k :| 0 <= k < |src| && src[k] != dst[k];
      assert (src + tail)[k] != (dst + tail)[k];
    }
  }

  /** The staging reference of an edge is its source registry name, a `/`,
      its source image name, an `@` and its digest (the tag takes no part);
      its digest and `registry/image` location can be read back from it. */
  lemma SrcRefFormat(edge: PromotionEdge)
    ensures SrcRef(edge) == edge.srcRegistry.name + "/" + edge.srcImageTag.name + "@" + edge.digest
    ensures '@' !in edge.digest ==>
              SplitDigest(SrcRef(edge))
                == Some((Location(edge.srcRegistry.name, edge.srcImageTag.name), edge.digest))
  {
    if '@' !in edge.digest {
      ImageRefRoundTrip(edge.srcRegistry.name, edge.srcImageTag.name, edge.digest);
    }
  }

  /** The production reference of an edge is its destination registry name,
      a `/`, its destination image name, an `@` and its digest (the tag takes
      no part); its digest and `registry/image` location can be read back. */
  lemma DstRefFormat(edge: PromotionEdge)
    ensures DstRef(edge) == edge.dstRegistry.name + "/" + edge.dstImageTag.name + "@" + edge.digest
    ensures '@' !in edge.digest ==>
              SplitDigest(DstRef(edge))
                == Some((Location(edge.dstRegistry.name, edge.dstImageTag.name), edge.digest))
  {
    if '@' !in edge.digest {
      ImageRefRoundTrip(edge.dstRegistry.name, edge.dstImageTag.name, edge.digest);
    }
  }
}
