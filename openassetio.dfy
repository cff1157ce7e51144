/** Core value types of the OpenAssetIO API that the binding only passes through. */
module OpenAssetIO {

  /** An entity reference; compared by its string value. */
  datatype EntityReference = EntityReference(str: string)

  /** A calling context; stands for the identity of the shared Context object. */
  datatype Context = Context(handle: nat)

  /** The publishing access mode (access::PublishingAccess), forwarded unchanged. */
  datatype PublishingAccess = PublishingAccess(code: nat)

  /** The relationship access mode (access::RelationsAccess), forwarded unchanged. */
  datatype RelationsAccess = RelationsAccess(code: nat)

  /** A page size given by the caller; C++ std::size_t, 64 bits wide. */
  newtype PageSize = x: int | 0 <= x < 0x1_0000_0000_0000_0000
}
