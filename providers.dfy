/** The capability-checked facade over the cloud services (`AwsProvider`) and the
    storage adapter that loads the configuration document (`ConfigurationProvider`). */
module Providers {
  import opened Common

  /** An authenticated session: an optional named profile and a region. */
  datatype Session = Session(profile: Option<string>, region: string)

  /** A service handle created from a session: a low-level client or a high-level resource. */
  datatype Handle = Client(session: Session, service: string) | Resource(session: Session, service: string)

  /** What a lookup of a valid name hands back: the bound handle, or the error OBJECT
      the source returns (instead of raising) when no handle of that name is bound. */
  datatype Lookup = Bound(handle: Handle) | ErrorValue(message: string)

  /** The names `get_client` accepts. */
  const ClientTypes: set<string> := {"s3", "ec2", "rds", "cloudwatch", "resourcegroupstaggingapi"}
  /** The names `get_resource` accepts; note that "rds" is accepted but never bound. */
  const ResourceTypes: set<string> := {"s3", "ec2", "rds"}
  /** The resources a session-backed provider creates. */
  const BoundResourceTypes: set<string> := {"s3", "ec2"}

  class AwsProvider {
    var session: Option<Session>
    var clients: map<string, Handle>
    var resources: map<string, Handle>

    /** What construction establishes: with a session, one client per client type and the
        s3 and ec2 resources, all made from that session; without one, nothing at all. */
    ghost predicate Valid()
      reads this
    {
      && clients.Keys == (if session.Some? then ClientTypes else {})
      && resources.Keys == (if session.Some? then BoundResourceTypes else {})
      && (forall n :: n in clients ==> clients[n] == Client(session.value, n))
      && (forall n :: n in resources ==> resources[n] == Resource(session.value, n))
    }

    constructor (session: Option<Session>)
      ensures this.session == session
      ensures Valid()
    {
      this.session := session;
      clients := map[];
      resources := map[];
      new;
      if session.Some? {
        var s := session.value;
        clients := clients["s3" := Client(s, "s3")];
        clients := clients["rds" := Client(s, "rds")];
        clients := clients["ec2" := Client(s, "ec2")];
        clients := clients["cloudwatch" := Client(s, "cloudwatch")];
        clients := clients["resourcegroupstaggingapi" := Client(s, "resourcegroupstaggingapi")];
        resources := resources["s3" := Resource(s, "s3")];
        resources := resources["ec2" := Resource(s, "ec2")];
        SessionHandles(s, clients, resources);
      }
    }

    /** `get_client`: raises for a name outside the client types, returns an error value
        for a valid name that is not bound, and the bound client otherwise. */
    function GetClient(clientType: string): (r: Result<Lookup>)
      reads this
      ensures r.Err? <==> clientType !in ClientTypes
      ensures r.Err? ==> r.error == UnsupportedClientType(clientType)
      ensures r.Ok? ==> (r.value.Bound? <==> clientType in clients)
      ensures r.Ok? && r.value.Bound? ==> r.value.handle == clients[clientType]
    {
      if clientType != "s3" && clientType != "ec2" && clientType != "rds"
         && clientType != "cloudwatch" && clientType != "resourcegroupstaggingapi"
      then Err(UnsupportedClientType(clientType))
      else if clientType !in clients
      then Ok(ErrorValue("Client type error, " + clientType + " not found in AWS clients"))
      else Ok(Bound(clients[clientType]))
    }

    /** `get_resource`: the same three outcomes over the resource types. */
    function GetResource(resourceType: string): (r: Result<Lookup>)
      reads this
      ensures r.Err? <==> resourceType !in ResourceTypes
      ensures r.Err? ==> r.error == UnsupportedResourceType(resourceType)
      ensures r.Ok? ==> (r.value.Bound? <==> resourceType in resources)
      ensures r.Ok? && r.value.Bound? ==> r.value.handle == resources[resourceType]
    {
      if resourceType != "s3" && resourceType != "ec2" && resourceType != "rds"
      then Err(UnsupportedResourceType(resourceType))
      else if resourceType !in resources
      then Ok(ErrorValue("Client type error, " + resourceType + " not found in AWS clients"))
      else Ok(Bound(resources[resourceType]))
    }
  }

  /** The handles the constructor creates from a session, in its order of creation, are the
      ones `Valid` describes. */
  lemma SessionHandles(s: Session, clients: map<string, Handle>, resources: map<string, Handle>)
    requires clients == map[]["s3" := Client(s, "s3")]["rds" := Client(s, "rds")]["ec2" := Client(s, "ec2")]
                          ["cloudwatch" := Client(s, "cloudwatch")]["resourcegroupstaggingapi" := Client(s, "resourcegroupstaggingapi")]
    requires resources == map[]["s3" := Resource(s, "s3")]["ec2" := Resource(s, "ec2")]
    ensures clients.Keys == ClientTypes && resources.Keys == BoundResourceTypes
    ensures forall n :: n in clients ==> clients[n] == Client(s, n)
    ensures forall n :: n in resources ==> resources[n] == Resource(s, n)
  {
  }

  /** A provider built without a session binds nothing: every valid name gives an error value. */
  lemma NoSessionBindsNothing(p: AwsProvider, name: string)
    requires p.Valid() && p.session.None?
    ensures name in ClientTypes ==> p.GetClient(name).Ok? && p.GetClient(name).value.ErrorValue?
    ensures name in ResourceTypes ==> p.GetResource(name).Ok? && p.GetResource(name).value.ErrorValue?
  {
  }

  /** A provider built with a session hands out, for every valid client name, the client made from
      that session; of the resources only s3 and ec2, so "rds" gives an error value even then. */
  lemma SessionBindsClients(p: AwsProvider, name: string)
    requires p.Valid() && p.session.Some?
    ensures name in ClientTypes ==> p.GetClient(name) == Ok(Bound(Client(p.session.value, name)))
    ensures name in BoundResourceTypes ==> p.GetResource(name) == Ok(Bound(Resource(p.session.value, name)))
    ensures p.GetResource("rds").Ok? && p.GetResource("rds").value.ErrorValue?
  {
  }

  /** What the storage read produced: a parsed document, a body that is not valid JSON
      (or not UTF-8), or any other failure of the storage service. */
  datatype Fetch = Fetched(document: Document) | NotJson | StorageFailure

  class ConfigurationProvider {
    var s3Client: Option<Lookup>
    var bucketName: Option<string>
    var fileKey: Option<string>

    constructor (s3Client: Option<Lookup>, bucketName: Option<string>, fileKey: Option<string>)
      ensures this.s3Client == s3Client && this.bucketName == bucketName && this.fileKey == fileKey
    {
      this.s3Client := s3Client;
      this.bucketName := bucketName;
      this.fileKey := fileKey;
    }

    method SetFileKey(fileKey: Option<string>)
      modifies this
      ensures this.fileKey == fileKey
      ensures s3Client == old(s3Client) && bucketName == old(bucketName)
    {
      this.fileKey := fileKey;
    }

    method SetBucketName(bucketName: Option<string>)
      modifies this
      ensures this.bucketName == bucketName
      ensures s3Client == old(s3Client) && fileKey == old(fileKey)
    {
      this.bucketName := bucketName;
    }

    method SetS3Client(s3Client: Option<Lookup>)
      modifies this
      ensures this.s3Client == s3Client
      ensures bucketName == old(bucketName) && fileKey == old(fileKey)
    {
      this.s3Client := s3Client;
    }

    /** Whether the stored client can serve `get_object`: only a bound s3 client can; an error
        value or another service's handle fails when called, and that failure is swallowed. */
    predicate CanRead()
      reads this
    {
      s3Client.Some? && s3Client.value.Bound? && s3Client.value.handle.Client? && s3Client.value.handle.service == "s3"
    }

    /** `load_raw_configuration`: the two precondition checks raise; past them every failure
        is logged and swallowed, so the result is `None` rather than an error. */
    function LoadRawConfiguration(fetched: Fetch): (r: Result<Option<Document>>)
      reads this
      ensures r == Err(NotInitialized) <==> fileKey.None? || bucketName.None? || s3Client.None?
      ensures r == Err(EmptyLocation) <==>
                fileKey.Some? && bucketName.Some? && s3Client.Some? && (fileKey.value == "" || bucketName.value == "")
      ensures r.Ok? <==> fileKey.Some? && bucketName.Some? && s3Client.Some? && fileKey.value != "" && bucketName.value != ""
      ensures r.Ok? && r.value.Some? <==> r.Ok? && CanRead() && fetched.Fetched?
      ensures r.Ok? && r.value.Some? ==> r.value.value == fetched.document
    {
      if fileKey.None? || bucketName.None? || s3Client.None? then Err(NotInitialized)
      else if fileKey.value == "" || bucketName.value == "" then Err(EmptyLocation)
      else if !CanRead() then Ok(None)
      else match fetched
        case Fetched(document) => Ok(Some(document))
        case NotJson => Ok(None)
        case StorageFailure => Ok(None)
    }
  }

  /** A missing object, a corrupt body and an unusable client all look the same to the
      caller: an empty-handed `Ok(None)`, never an exception, once the location checks pass. */
  lemma LoadFailuresAreSwallowed(p: ConfigurationProvider, fetched: Fetch)
    requires p.fileKey.Some? && p.bucketName.Some? && p.s3Client.Some?
    requires p.fileKey.value != "" && p.bucketName.value != ""
    requires !fetched.Fetched? || !p.CanRead()
    ensures p.LoadRawConfiguration(fetched) == Ok(None)
  {
  }
}
