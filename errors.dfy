/** The ways a serialisation call can abort. Nothing in the serialiser recovers from any of them. */
module Errors {

  /** The `assert` statements of IronicSerialiser, modelled as active assertions. */
  datatype Assertion =
    | KeyPropertiesPresent     // the entity type has at least one key property
    | KeyTypeIsIType           // every key property has a primitive (IType) instance type
    | ResourceSetPresent       // the entity type's custom state is a ResourceSet
    | NavigationKindValid      // a navigation property is a resource or resource-set reference
    | StackBalanced            // the light stack has its entry depth again after the links are built
    | ProjectionNodeFound      // every segment below the root names a child projection node
    | ProjectionNodeExpanded   // ... and that child is an expanded projection node
    | SkipTokenPresent         // the order-by information built a skip token
    | EntriesAreArray          // a feed is written from an array of entries
    | StreamProviderPresent    // the service has a stream provider

  datatype Error =
      /** ODataException::createInternalServerError (HTTP 500) for a key property
          whose value is not set on the instance being keyed. */
    | NullKeyNotSupported(typeName: string, keyName: string)
    | AssertionFailed(assertion: Assertion)
      /** The providers wrapper resolved no type for this name; the next call on it is fatal. */
    | UnresolvedResourceType(typeName: string)
      /** getNextLinkUri called getInternalOrderByInfo on a null projection node. */
    | NoProjectionNode
      /** getNextLinkUri called buildSkipTokenValue on null order-by information. */
    | NoOrderByInfo
      /** primitiveToString's IType parameter was given the instance type of a complex
          or entity property (a PHP TypeError). */
    | NotAnIType(propertyName: string)
}
