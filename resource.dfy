/**
 * Resource helpers: the asynchronous loading states and the null-tolerant
 * name, type and reference accessors used when saving resource references.
 */
module Resources {
  import opened Wrappers

  /** Asynchronous loading state of a resource, with its numeric value. */
  datatype AsyncLoadState = ASYNC_DONE | ASYNC_QUEUED | ASYNC_LOADING | ASYNC_SUCCESS | ASYNC_FAIL
  {
    function Value(): (v: nat)
      ensures v < 5
    {
      match this
      case ASYNC_DONE => 0
      case ASYNC_QUEUED => 1
      case ASYNC_LOADING => 2
      case ASYNC_SUCCESS => 3
      case ASYNC_FAIL => 4
    }
  }

  lemma AsyncLoadStateValues()
    ensures ASYNC_DONE.Value() == 0 && ASYNC_QUEUED.Value() == 1 && ASYNC_LOADING.Value() == 2
    ensures ASYNC_SUCCESS.Value() == 3 && ASYNC_FAIL.Value() == 4
    ensures forall a: AsyncLoadState, b: AsyncLoadState :: a.Value() == b.Value() ==> a == b
  {
  }

  /** A string hash identifying a resource type. */
  type StringHash = nat

  /** A resource as these helpers see it: its name and its type. */
  datatype Resource = Resource(name: string, resourceType: StringHash)

  /** A reference to a resource: its type and name. */
  datatype ResourceRef = ResourceRef(resourceType: StringHash, name: string)

  /** A list of references of one type. */
  datatype ResourceRefList = ResourceRefList(resourceType: StringHash, names: seq<string>)

  /** The resource's name, or the empty string for a null resource. */
  function GetResourceName(resource: Option<Resource>): (r: string)
    ensures resource.None? ==> r == ""
    ensures resource.Some? ==> r == resource.value.name
  {
    if resource.Some? then resource.value.name else ""
  }

  /** The resource's type, or `defaultType` for a null resource. */
  function GetResourceType(resource: Option<Resource>, defaultType: StringHash): (r: StringHash)
    ensures resource.None? ==> r == defaultType
    ensures resource.Some? ==> r == resource.value.resourceType
  {
    if resource.Some? then resource.value.resourceType else defaultType
  }

  /** The reference to a resource, with the same fallbacks as the two accessors. */
  function GetResourceRef(resource: Option<Resource>, defaultType: StringHash): (r: ResourceRef)
    ensures resource.None? ==> r == ResourceRef(defaultType, "")
    ensures resource.Some? ==> r == ResourceRef(resource.value.resourceType, resource.value.name)
  {
    ResourceRef(GetResourceType(resource, defaultType), GetResourceName(resource))
  }

  /** The names of a list of resources, position by position (empty for null entries). */
  method GetResourceNames(resources: seq<Option<Resource>>) returns (ret: seq<string>)
    ensures |ret| == |resources|
    ensures forall i :: 0 <= i < |resources| ==> ret[i] == GetResourceName(resources[i])
  {
    ret := seq(|resources|, _ => "");
    var i := 0;
    while i < |resources|
      invariant 0 <= i <= |resources| && |ret| == |resources|
      invariant forall k :: 0 <= k < i ==> ret[k] == GetResourceName(resources[k])
    {
      ret := ret[i := GetResourceName(resources[i])];
      i := i + 1;
    }
  }

  /** The reference list of resources whose static type is `staticType`. */
  method GetResourceRefList(resources: seq<Option<Resource>>, staticType: StringHash) returns (r: ResourceRefList)
    ensures r.resourceType == staticType && |r.names| == |resources|
    ensures forall i :: 0 <= i < |resources| ==> r.names[i] == GetResourceName(resources[i])
  {
    var names := GetResourceNames(resources);
    r := ResourceRefList(staticType, names);
  }
}
