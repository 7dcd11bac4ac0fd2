/** Shared vocabulary: the configuration document, the error taxonomy and the
    result wrappers that stand for Python's `None` and raised exceptions. */
module Common {

  /** The persisted configuration document: composite key to an ordered list of identifiers. */
  type Document = map<string, seq<string>>

  /** The document's key convention, `{version}-{category}`, shared by its writer and its reader. */
  function Ec2Key(version: string, environment: string): string { version + "-" + environment + "-ec2-instances" }
  function VmidsKey(version: string, environment: string): string { version + "-" + environment + "-vmids" }
  function WorkerNamesKey(version: string): string { version + "-workers-names" }
  function AlbNameKey(version: string): string { version + "-repo-alb-name" }

  datatype Option<+T> = None | Some(value: T)

  /** Each constructor is one exception the source raises (or lets escape). */
  datatype Error =
    | UnsupportedClientType(clientType: string)      // get_client: name outside the five client types
    | UnsupportedResourceType(resourceType: string)  // get_resource: name outside s3, ec2, rds
    | NotInitialized                                  // load_raw_configuration: a location part is None
    | EmptyLocation                                   // load_raw_configuration: bucket or key is ''
    | InvalidStackInstance(stackInstance: string)         // instance label without '-'
    | InvalidInstanceType(instanceType: string)       // memory namespace type other than "R" / "W"
    | MissingInstance(environment: string)            // KeyError on the per-environment label table
    | MissingDimension                                // IndexError on metric["Dimensions"][0]
    | MissingDbName(identifier: string)               // KeyError on inst['DBName']
    | NoIdgenInstance                                 // IndexError on instance_ids[0]
    | ArnMismatch(arn: string)                        // the ALB regex did not match (None.groups())
    | NoDocument                                      // merge into a configuration that is None
    | NoProvider                                      // save through a missing configuration provider
    | MissingKey(key: string)                         // KeyError on config[key] in the dashboard
    | UnknownEnvironment(environment: string)         // KeyError on ENV_KEYS[environment]
    | MissingContext(name: string)                    // stack construction without a context value

  datatype Result<+T> = Ok(value: T) | Err(error: Error)

  /** Splitting off the head of a concatenation whose left operand is not empty. */
  lemma AppendHead<T>(a: seq<T>, b: seq<T>)
    requires a != []
    ensures (a + b)[0] == a[0] && (a + b)[1..] == a[1..] + b
  {
  }

  lemma AppendAssoc<T>(a: seq<T>, b: seq<T>, c: seq<T>)
    ensures a + (b + c) == (a + b) + c
  {
  }

  lemma AppendEmpty<T>(a: seq<T>)
    ensures a + [] == a && [] + a == a
  {
  }

  lemma SingletonTail<T>(x: T)
    ensures [x][0] == x && [x][1..] == []
  {
  }

  /** Growing a prefix by the next element. */
  lemma TakeNext<T>(s: seq<T>, i: nat)
    requires i < |s|
    ensures s[..i] + [s[i]] == s[..i + 1]
  {
  }

  /** Cutting a concatenation where its left operand ends. */
  lemma DropPrefix<T>(a: seq<T>, b: seq<T>)
    ensures (a + b)[..|a|] == a && (a + b)[|a|..] == b
  {
  }

  /** A non-empty sequence is its prefix followed by its last element. */
  lemma SplitLast<T>(s: seq<T>)
    requires s != []
    ensures s == s[..|s| - 1] + [s[|s| - 1]]
  {
  }
}
