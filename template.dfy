/**
 * The descriptor the template returns (main.py, GenerateConfig): ten
 * resource records in a fixed order, later ones referring to earlier ones
 * by placeholder, and two outputs.
 */
module Template {
  import opened Wrappers
  import opened Json
  import opened References
  import opened Params
  import opened Resources

  const TopicName: string := "google_pubsub_topic-this"
  const SubscriptionName: string := "google_pubsub_subscription-this"
  const SinkName: string := "google_logging_project_sink-this"
  const SinkPublisherName: string := "google_pubsub_topic_iam_member-sink_pubsub"
  const PollerAccountName: string := "google_service_account-poller"
  const PollerBindingPrefix: string := "google_project_iam_member-poller-"
  const PollerKeyName: string := "google_service_account_key-poller"

  const IamMemberBindingType: string := "gcp-types/cloudresourcemanager-v1:virtual.projects.iamMemberBinding"

  /** The roles granted to the poller account, one binding each, in this order. */
  const PollerRoles: seq<string> :=
    ["roles/pubsub.subscriber", "roles/monitoring.viewer", "roles/cloudasset.viewer", "roles/browser"]

  const SinkDescription: string := "Export logs to the Observe PubSub topic"
  // One text, written as two literals only so that the solver can check its
  // characters piecewise.
  const PollerDescription: string := "A service account for the " + "Observe Pub/Sub and Logging pollers"

  /** The member every poller binding grants its role to. */
  const PollerMember: string := "serviceAccount:" + Ref(PollerAccountName, "email")

  /** The decimal form of a natural number, as Python's str() writes it. */
  function Decimal(n: nat): (r: string)
    ensures |r| >= 1
    ensures n < 10 ==> r == [('0' as int + n) as char]
  {
    if n < 10 then [('0' as int + n) as char]
    else Decimal(n / 10) + [('0' as int + n % 10) as char]
  }

  /** The name of the binding at position `i` of the poller's roles. */
  function BindingName(i: nat): string
  {
    PollerBindingPrefix + Decimal(i)
  }

  /** The names of the records, in the order they are declared. */
  const ResourceNames: seq<string> :=
    [TopicName, SubscriptionName, SinkName, SinkPublisherName, PollerAccountName,
     PollerBindingPrefix + "0", PollerBindingPrefix + "1",
     PollerBindingPrefix + "2", PollerBindingPrefix + "3",
     PollerKeyName]

  /** The types of the records, in the order they are declared. */
  const ResourceTypes: seq<string> :=
    ["gcp-types/pubsub-v1:projects.topics", "gcp-types/pubsub-v1:projects.subscriptions",
     "gcp-types/logging-v2:projects.sinks", IamMemberBindingType,
     "gcp-types/iam-v1:projects.serviceAccounts",
     IamMemberBindingType, IamMemberBindingType, IamMemberBindingType, IamMemberBindingType,
     "gcp-types/iam-v1:projects.serviceAccounts.keys"]

  /** For each record, the names its placeholders refer to. */
  const Dependencies: seq<set<string>> :=
    [{}, {TopicName}, {TopicName}, {SinkName}, {},
     {PollerAccountName}, {PollerAccountName}, {PollerAccountName}, {PollerAccountName},
     {PollerAccountName}]

  /** The outputs' names, and the record and field each output's value refers to. */
  const OutputNames: seq<string> := ["subscription_id", "poller_private_key_base64"]
  const OutputTargets: seq<string> := [SubscriptionName, PollerKeyName]
  const OutputFields: seq<string> := ["name", "privateKeyData"]

  /** What the template returns: the `resources` and `outputs` lists. */
  datatype Descriptor = Descriptor(resources: seq<Dict>, outputs: seq<Dict>)

  // ---- The records ----

  function Topic(v: Variables, l: Locals): Resource
  {
    Resource(TopicName, "gcp-types/pubsub-v1:projects.topics",
      [("topic", Str(v.name)),
       ("labels", v.labels),
       ("messageStoragePolicy", Obj([("allowedPersistenceRegions", List([l.region]))]))],
      Null)
  }

  function Subscription(v: Variables): Resource
  {
    Resource(SubscriptionName, "gcp-types/pubsub-v1:projects.subscriptions",
      [("subscription", Str(v.name)),
       ("labels", v.labels),
       ("topic", Str(Ref(TopicName, "name"))),
       ("ackDeadlineSeconds", v.ackDeadlineSeconds),
       ("messageRetentionDuration", v.messageRetentionDuration),
       ("retryPolicy", Obj([("minimumBackoff", v.minimumBackoff),
                            ("maximumBackoff", v.maximumBackoff)]))],
      Null)
  }

  function Sink(v: Variables, l: Locals): Resource
  {
    Resource(SinkName, "gcp-types/logging-v2:projects.sinks",
      [("parent", l.project),
       ("name", Str(v.name)),
       ("sink", Str(v.name)),
       ("destination", Str("pubsub.googleapis.com/" + Ref(TopicName, "name"))),
       ("uniqueWriterIdentity", Bool(true)),
       ("filter", v.loggingFilter),
       ("description", Str(SinkDescription)),
       ("exclusions", v.loggingExclusions)],
      Null)
  }

  function SinkPublisher(l: Locals): Resource
  {
    Resource(SinkPublisherName, IamMemberBindingType,
      [("resource", l.project),
       ("role", Str("roles/pubsub.publisher")),
       ("member", Str(Ref(SinkName, "writerIdentity")))],
      Null)
  }

  function PollerAccount(v: Variables): Resource
  {
    Resource(PollerAccountName, "gcp-types/iam-v1:projects.serviceAccounts",
      [("accountId", Str(v.name + "-poll")),
       ("description", Str(PollerDescription))],
      Null)
  }

  function PollerBinding(l: Locals, i: nat, role: string): Resource
  {
    Resource(BindingName(i), IamMemberBindingType,
      [("resource", l.project),
       ("role", Str(role)),
       ("member", Str(PollerMember))],
      Null)
  }

  function PollerKey(): Resource
  {
    Resource(PollerKeyName, "gcp-types/iam-v1:projects.serviceAccounts.keys",
      [("name", Str("poller")),
       ("parent", Str(Ref(PollerAccountName, "name")))],
      Null)
  }

  /** Every record the template declares, in declaration order. */
  function Records(v: Variables): (rs: seq<Resource>)
    ensures |rs| == |ResourceNames|
    ensures forall i :: 0 <= i < |rs| ==> rs[i].name == ResourceNames[i]
    ensures forall i :: 0 <= i < |rs| ==> rs[i].typ == ResourceTypes[i]
    ensures forall i :: 0 <= i < |rs| ==> rs[i].metadata == Null
  {
    var l := LocalsOf(v);
    [Topic(v, l), Subscription(v), Sink(v, l), SinkPublisher(l), PollerAccount(v)]
    + seq(|PollerRoles|, i requires 0 <= i < |PollerRoles| => PollerBinding(l, i, PollerRoles[i]))
    + [PollerKey()]
  }

  /** Where each record builder's result sits in Records. */
  lemma RecordsLayout(v: Variables)
    ensures var l := LocalsOf(v);
            && Records(v)[0] == Topic(v, l)
            && Records(v)[1] == Subscription(v)
            && Records(v)[2] == Sink(v, l)
            && Records(v)[3] == SinkPublisher(l)
            && Records(v)[4] == PollerAccount(v)
            && (forall i :: 0 <= i < |PollerRoles| ==> Records(v)[5 + i] == PollerBinding(l, i, PollerRoles[i]))
            && Records(v)[9] == PollerKey()
  {
  }

  const Outputs: seq<Dict> :=
    [[("name", Str("subscription_id")), ("value", Str(Ref(SubscriptionName, "name")))],
     [("name", Str("poller_private_key_base64")), ("value", Str(Ref(PollerKeyName, "privateKeyData")))]]

  // ---- References between the records ----

  /** No caller-supplied text in `v` contains a dollar sign. */
  ghost predicate VariablesDollarFree(v: Variables)
  {
    && '$' !in v.name
    && DollarFree(v.labels) && DollarFree(v.ackDeadlineSeconds)
    && DollarFree(v.loggingFilter) && DollarFree(v.loggingExclusions)
    && DollarFree(v.messageRetentionDuration)
    && DollarFree(v.minimumBackoff) && DollarFree(v.maximumBackoff)
    && DollarFree(v.projectId) && DollarFree(v.region)
  }

  /** A dictionary whose other values are dollar-free refers to what its entry `i` refers to. */
  lemma RefersToOneEntry(d: Dict, i: nat, n: string)
    requires i < |d|
    requires forall j :: 0 <= j < |d| && j != i ==> DollarFree(d[j].1)
    ensures RefersTo(Obj(d), n) <==> RefersTo(d[i].1, n)
  {
    forall j | 0 <= j < |d| && j != i ensures !RefersTo(d[j].1, n) {
      DollarFreeRefersToNothing(d[j].1, n);
    }
  }

  /**
   * A dictionary that holds one placeholder, in entry `i`, and dollar-free
   * values elsewhere refers exactly to that placeholder's record.
   */
  lemma RefersToOnePlaceholder(d: Dict, i: nat, p: string, name: string, field: string, n: string)
    requires i < |d| && d[i].1 == Str(p + Ref(name, field))
    requires forall j :: 0 <= j < |d| && j != i ==> DollarFree(d[j].1)
    requires '$' !in p && '$' !in field && '.' !in name
    ensures RefersTo(Obj(d), n) <==> n == name
  {
    RefersToOneEntry(d, i, n);
    RefRoundTrip(p, name, field);
  }

  // The fixed texts of the template hold no placeholder, and the names
  // that placeholders refer to hold no dot.

  lemma NamesHaveNoDot()
    ensures '.' !in TopicName && '.' !in SinkName && '.' !in PollerAccountName
  {
  }

  lemma OutputTargetsHaveNoDot()
    ensures '.' !in SubscriptionName && '.' !in PollerKeyName && '$' !in "privateKeyData"
  {
  }

  lemma RolesDollarFree()
    ensures forall i :: 0 <= i < |PollerRoles| ==> '$' !in PollerRoles[i]
  {
  }

  lemma DescriptionsDollarFree()
    ensures '$' !in SinkDescription && '$' !in PollerDescription
  {
  }

  lemma FixedTextsDollarFree()
    ensures '$' !in "roles/pubsub.publisher" && '$' !in "pubsub.googleapis.com/"
    ensures '$' !in "serviceAccount:" && '$' !in "writerIdentity" && '$' !in "poller"
  {
  }

  lemma TopicRefs(v: Variables, n: string)
    requires VariablesDollarFree(v)
    ensures !RefersTo(Obj(Topic(v, LocalsOf(v)).properties), n)
  {
    var d := Topic(v, LocalsOf(v)).properties;
    assert DollarFree(d[2].1) by {
      assert DollarFree(List([v.region]));
    }
    assert DollarFree(Obj(d));
    DollarFreeRefersToNothing(Obj(d), n);
  }

  lemma SubscriptionRefs(v: Variables, n: string)
    requires VariablesDollarFree(v)
    ensures RefersTo(Obj(Subscription(v).properties), n) <==> n == TopicName
  {
    var d := Subscription(v).properties;
    NamesHaveNoDot();
    assert DollarFree(d[5].1);
    assert d[2].1 == Str("" + Ref(TopicName, "name"));
    RefersToOnePlaceholder(d, 2, "", TopicName, "name", n);
  }

  lemma SinkRefs(v: Variables, n: string)
    requires VariablesDollarFree(v)
    ensures RefersTo(Obj(Sink(v, LocalsOf(v)).properties), n) <==> n == TopicName
  {
    var d := Sink(v, LocalsOf(v)).properties;
    NamesHaveNoDot();
    FixedTextsDollarFree();
    DescriptionsDollarFree();
    assert DollarFree(d[1].1) && DollarFree(d[2].1) && DollarFree(d[4].1) && DollarFree(d[6].1);
    RefersToOnePlaceholder(d, 3, "pubsub.googleapis.com/", TopicName, "name", n);
  }

  lemma SinkPublisherRefs(v: Variables, n: string)
    requires VariablesDollarFree(v)
    ensures RefersTo(Obj(SinkPublisher(LocalsOf(v)).properties), n) <==> n == SinkName
  {
    var d := SinkPublisher(LocalsOf(v)).properties;
    NamesHaveNoDot();
    FixedTextsDollarFree();
    assert DollarFree(d[1].1);
    assert d[2].1 == Str("" + Ref(SinkName, "writerIdentity"));
    RefersToOnePlaceholder(d, 2, "", SinkName, "writerIdentity", n);
  }

  lemma PollerAccountRefs(v: Variables, n: string)
    requires VariablesDollarFree(v)
    ensures !RefersTo(Obj(PollerAccount(v).properties), n)
  {
    var d := PollerAccount(v).properties;
    DescriptionsDollarFree();
    assert DollarFree(d[0].1) by {
      assert '$' !in v.name + "-poll";
    }
    assert DollarFree(d[1].1);
    assert DollarFree(Obj(d));
    DollarFreeRefersToNothing(Obj(d), n);
  }

  lemma PollerBindingRefs(v: Variables, i: nat, role: string, n: string)
    requires VariablesDollarFree(v) && '$' !in role
    ensures RefersTo(Obj(PollerBinding(LocalsOf(v), i, role).properties), n) <==> n == PollerAccountName
  {
    var d := PollerBinding(LocalsOf(v), i, role).properties;
    NamesHaveNoDot();
    FixedTextsDollarFree();
    assert DollarFree(d[1].1);
    RefersToOnePlaceholder(d, 2, "serviceAccount:", PollerAccountName, "email", n);
  }

  lemma PollerKeyRefs(n: string)
    ensures RefersTo(Obj(PollerKey().properties), n) <==> n == PollerAccountName
  {
    var d := PollerKey().properties;
    NamesHaveNoDot();
    FixedTextsDollarFree();
    assert DollarFree(d[0].1);
    assert d[1].1 == Str("" + Ref(PollerAccountName, "name"));
    RefersToOnePlaceholder(d, 1, "", PollerAccountName, "name", n);
  }

  /** The placeholders of each record name exactly the records listed in Dependencies. */
  lemma RecordsRefs(v: Variables)
    requires VariablesDollarFree(v)
    ensures forall i, n :: 0 <= i < |Records(v)| ==>
              (RefersTo(Obj(Records(v)[i].properties), n) <==> n in Dependencies[i])
  {
    var rs := Records(v);
    var l := LocalsOf(v);
    forall i, n | 0 <= i < |rs|
      ensures RefersTo(Obj(rs[i].properties), n) <==> n in Dependencies[i]
    {
      if i == 0 {
        TopicRefs(v, n);
      } else if i == 1 {
        SubscriptionRefs(v, n);
      } else if i == 2 {
        SinkRefs(v, n);
      } else if i == 3 {
        SinkPublisherRefs(v, n);
      } else if i == 4 {
        PollerAccountRefs(v, n);
      } else if i < 9 {
        assert rs[i] == PollerBinding(l, i - 5, PollerRoles[i - 5]);
        RolesDollarFree();
        PollerBindingRefs(v, i - 5, PollerRoles[i - 5], n);
      } else {
        PollerKeyRefs(n);
      }
    }
  }

  /** Every name a record depends on is the name of a record declared before it. */
  lemma DependenciesDeclaredEarlier()
    ensures forall i, n :: 0 <= i < |Dependencies| && n in Dependencies[i] ==>
              exists j :: 0 <= j < i && ResourceNames[j] == n
  {
    forall i, n | 0 <= i < |Dependencies| && n in Dependencies[i]
      ensures exists j :: 0 <= j < i && ResourceNames[j] == n
    {
      if n == TopicName {
        assert ResourceNames[0] == n;
      } else if n == SinkName {
        assert ResourceNames[2] == n;
      } else {
        assert ResourceNames[4] == n;
      }
    }
  }

  /** No two records share a name. */
  lemma ResourceNamesDistinct()
    ensures forall i, j :: 0 <= i < |ResourceNames| && 0 <= j < |ResourceNames| && i != j ==>
              ResourceNames[i] != ResourceNames[j]
  {
    forall i, j | 0 <= i < |ResourceNames| && 0 <= j < |ResourceNames| && i != j
      ensures ResourceNames[i] != ResourceNames[j]
    {
      if 5 <= i < 9 && 5 <= j < 9 {
        // the bindings differ in their index digit
        var k := |PollerBindingPrefix|;
        assert ResourceNames[i][k] == ('0' as int + (i - 5)) as char;
        assert ResourceNames[j][k] == ('0' as int + (j - 5)) as char;
      } else {
        assert |ResourceNames[i]| != |ResourceNames[j]|;
      }
    }
  }

  // ---- What the records carry from the parameters ----

  lemma TopicCarries(v: Variables)
    ensures var p := Obj(Topic(v, LocalsOf(v)).properties);
            && Lookup(p, ["topic"]) == Some(Str(v.name))
            && Lookup(p, ["labels"]) == Some(v.labels)
            && Lookup(p, ["messageStoragePolicy", "allowedPersistenceRegions"]) == Some(List([v.region]))
  {
    var d := Topic(v, LocalsOf(v)).properties;
    LookupStep(d, 0, ["topic"]);
    LookupStep(d, 1, ["labels"]);
    LookupStep(d, 2, ["messageStoragePolicy", "allowedPersistenceRegions"]);
    LookupStep([("allowedPersistenceRegions", List([v.region]))], 0, ["allowedPersistenceRegions"]);
  }

  lemma SubscriptionCarries(v: Variables)
    ensures var p := Obj(Subscription(v).properties);
            && Lookup(p, ["subscription"]) == Some(Str(v.name))
            && Lookup(p, ["labels"]) == Some(v.labels)
            && Lookup(p, ["ackDeadlineSeconds"]) == Some(v.ackDeadlineSeconds)
            && Lookup(p, ["messageRetentionDuration"]) == Some(v.messageRetentionDuration)
            && Lookup(p, ["retryPolicy", "minimumBackoff"]) == Some(v.minimumBackoff)
            && Lookup(p, ["retryPolicy", "maximumBackoff"]) == Some(v.maximumBackoff)
  {
    var d := Subscription(v).properties;
    LookupStep(d, 0, ["subscription"]);
    LookupStep(d, 1, ["labels"]);
    LookupStep(d, 3, ["ackDeadlineSeconds"]);
    LookupStep(d, 4, ["messageRetentionDuration"]);
    var retry := [("minimumBackoff", v.minimumBackoff), ("maximumBackoff", v.maximumBackoff)];
    LookupStep(d, 5, ["retryPolicy", "minimumBackoff"]);
    LookupStep(retry, 0, ["minimumBackoff"]);
    LookupStep(d, 5, ["retryPolicy", "maximumBackoff"]);
    LookupStep(retry, 1, ["maximumBackoff"]);
  }

  lemma SinkCarries(v: Variables)
    ensures var p := Obj(Sink(v, LocalsOf(v)).properties);
            && Lookup(p, ["parent"]) == Some(v.projectId)
            && Lookup(p, ["name"]) == Some(Str(v.name))
            && Lookup(p, ["sink"]) == Some(Str(v.name))
            && Lookup(p, ["uniqueWriterIdentity"]) == Some(Bool(true))
            && Lookup(p, ["filter"]) == Some(v.loggingFilter)
            && Lookup(p, ["exclusions"]) == Some(v.loggingExclusions)
  {
    var d := Sink(v, LocalsOf(v)).properties;
    LookupStep(d, 0, ["parent"]);
    LookupStep(d, 1, ["name"]);
    LookupStep(d, 2, ["sink"]);
    LookupStep(d, 4, ["uniqueWriterIdentity"]);
    LookupStep(d, 5, ["filter"]);
    LookupStep(d, 7, ["exclusions"]);
  }

  lemma SinkPublisherCarries(v: Variables)
    ensures var p := Obj(SinkPublisher(LocalsOf(v)).properties);
            && Lookup(p, ["resource"]) == Some(v.projectId)
            && Lookup(p, ["role"]) == Some(Str("roles/pubsub.publisher"))
  {
    var d := SinkPublisher(LocalsOf(v)).properties;
    LookupStep(d, 0, ["resource"]);
    LookupStep(d, 1, ["role"]);
  }

  lemma PollerAccountCarries(v: Variables)
    ensures Lookup(Obj(PollerAccount(v).properties), ["accountId"]) == Some(Str(v.name + "-poll"))
  {
    LookupStep(PollerAccount(v).properties, 0, ["accountId"]);
  }

  lemma PollerBindingCarries(l: Locals, i: nat, role: string)
    ensures var p := Obj(PollerBinding(l, i, role).properties);
            && Lookup(p, ["resource"]) == Some(l.project)
            && Lookup(p, ["role"]) == Some(Str(role))
            && Lookup(p, ["member"]) == Some(Str(PollerMember))
  {
    var d := PollerBinding(l, i, role).properties;
    LookupStep(d, 0, ["resource"]);
    LookupStep(d, 1, ["role"]);
    LookupStep(d, 2, ["member"]);
  }

  // ---- The descriptor ----

  /** The `properties` of a record dictionary (Null when it has none). */
  function Payload(d: Dict): Value
  {
    match Get(d, "properties")
    case Some(p) => p
    case None => Null
  }

  /** The `value` of an output dictionary (Null when it has none). */
  function OutputValue(d: Dict): Value
  {
    match Get(d, "value")
    case Some(x) => x
    case None => Null
  }

  predicate Named(d: Dict, n: string)
  {
    Get(d, "name") == Some(Str(n))
  }

  ghost predicate Carries(d: Dict, path: seq<string>, x: Value)
  {
    Lookup(Payload(d), path) == Some(x)
  }

  /** `rs` is the dictionary form of the records built from `v`. */
  ghost predicate Renders(rs: seq<Dict>, v: Variables)
  {
    |rs| == |Records(v)| && forall k :: 0 <= k < |rs| ==> rs[k] == AsDict(Records(v)[k])
  }

  /** The ten records, with their names and types in declaration order, and no metadata. */
  ghost predicate DeclaresInOrder(rs: seq<Dict>)
  {
    && |rs| == |ResourceNames|
    && forall i :: 0 <= i < |rs| ==>
         && Named(rs[i], ResourceNames[i])
         && Get(rs[i], "type") == Some(Str(ResourceTypes[i]))
         && Get(rs[i], "metadata") == None
  }

  ghost predicate DistinctNames(rs: seq<Dict>)
  {
    forall i, j :: 0 <= i < |rs| && 0 <= j < |rs| && i != j ==> Get(rs[i], "name") != Get(rs[j], "name")
  }

  /** Every placeholder in a record's properties names a record declared before it. */
  ghost predicate ForwardRefs(rs: seq<Dict>)
  {
    forall i, n :: 0 <= i < |rs| && RefersTo(Payload(rs[i]), n) ==>
      exists j :: 0 <= j < i && Named(rs[j], n)
  }

  /** Record i refers to the records in Dependencies[i] and to no other. */
  ghost predicate RefersExactly(rs: seq<Dict>)
  {
    && |rs| == |Dependencies|
    && forall i, n :: 0 <= i < |rs| ==> (RefersTo(Payload(rs[i]), n) <==> n in Dependencies[i])
  }

  /**
   * Each output is named as listed, its value is the placeholder for the
   * listed field of the listed record, and it refers to exactly that
   * record, which is declared.
   */
  ghost predicate OutputsResolve(desc: Descriptor)
  {
    && |desc.outputs| == |OutputNames|
    && forall k :: 0 <= k < |desc.outputs| ==>
         && Named(desc.outputs[k], OutputNames[k])
         && OutputValue(desc.outputs[k]) == Str(Ref(OutputTargets[k], OutputFields[k]))
         && (forall n :: RefersTo(OutputValue(desc.outputs[k]), n) <==> n == OutputTargets[k])
         && exists j :: 0 <= j < |desc.resources| && Named(desc.resources[j], OutputTargets[k])
  }

  /** No property the template reads holds a dollar sign; other properties are unconstrained. */
  ghost predicate InputDollarFree(props: map<string, Value>)
  {
    forall k :: k in ReadKeys && k in props ==> DollarFree(props[k])
  }

  /** The name the records are built around: the caller's, or the default. */
  function NameSetting(props: map<string, Value>): Value
  {
    Setting(props, "name", Str(DefaultName))
  }

  function LabelsSetting(props: map<string, Value>): Value
  {
    Setting(props, "labels", Obj([]))
  }

  ghost predicate TopicPasses(d: Dict, props: map<string, Value>)
  {
    && "region" in props
    && Carries(d, ["topic"], NameSetting(props))
    && Carries(d, ["labels"], LabelsSetting(props))
    && Carries(d, ["messageStoragePolicy", "allowedPersistenceRegions"], List([props["region"]]))
  }

  ghost predicate SubscriptionPasses(d: Dict, props: map<string, Value>)
  {
    && Carries(d, ["subscription"], NameSetting(props))
    && Carries(d, ["labels"], LabelsSetting(props))
    && Carries(d, ["ackDeadlineSeconds"], Setting(props, "pubsub_ack_deadline_seconds", Int(60)))
    && Carries(d, ["messageRetentionDuration"], Setting(props, "pubsub_message_retention_duration", Str("86400s")))
    && Carries(d, ["retryPolicy", "minimumBackoff"], Setting(props, "pubsub_minimum_backoff", Str("10s")))
    && Carries(d, ["retryPolicy", "maximumBackoff"], Setting(props, "pubsub_maximum_backoff", Str("600s")))
  }

  ghost predicate SinkPasses(d: Dict, props: map<string, Value>)
  {
    && "project_id" in props
    && Carries(d, ["parent"], props["project_id"])
    && Carries(d, ["name"], NameSetting(props))
    && Carries(d, ["sink"], NameSetting(props))
    && Carries(d, ["uniqueWriterIdentity"], Bool(true))
    && Carries(d, ["filter"], Setting(props, "logging_filter", Str("")))
    && Carries(d, ["exclusions"], Setting(props, "logging_exclusions", List([])))
  }

  ghost predicate PublisherPasses(d: Dict, props: map<string, Value>)
  {
    && "project_id" in props
    && Carries(d, ["resource"], props["project_id"])
    && Carries(d, ["role"], Str("roles/pubsub.publisher"))
  }

  ghost predicate AccountPasses(d: Dict, props: map<string, Value>)
  {
    && NameSetting(props).Str?
    && Carries(d, ["accountId"], Str(NameSetting(props).s + "-poll"))
  }

  /** The records carry the caller's values, or the defaults, where the template puts them. */
  ghost predicate PassesThrough(rs: seq<Dict>, props: map<string, Value>)
  {
    && |rs| == |ResourceNames|
    && TopicPasses(rs[0], props)
    && SubscriptionPasses(rs[1], props)
    && SinkPasses(rs[2], props)
    && PublisherPasses(rs[3], props)
    && AccountPasses(rs[4], props)
  }

  /** The texts the template fixes itself: placeholder fields, the sink's destination, descriptions, the key's name. */
  ghost predicate FixedTexts(rs: seq<Dict>)
  {
    && |rs| == |ResourceNames|
    && Carries(rs[1], ["topic"], Str(Ref(TopicName, "name")))
    && Carries(rs[2], ["destination"], Str("pubsub.googleapis.com/" + Ref(TopicName, "name")))
    && Carries(rs[2], ["description"], Str(SinkDescription))
    && Carries(rs[3], ["member"], Str(Ref(SinkName, "writerIdentity")))
    && Carries(rs[4], ["description"], Str(PollerDescription))
    && Carries(rs[9], ["name"], Str("poller"))
    && Carries(rs[9], ["parent"], Str(Ref(PollerAccountName, "name")))
  }

  /** Binding i grants PollerRoles[i] on the project to the poller account. */
  ghost predicate BindsPollerRoles(rs: seq<Dict>, props: map<string, Value>)
  {
    && |rs| == |ResourceNames| && "project_id" in props
    && forall k :: 0 <= k < |PollerRoles| ==>
         && Carries(rs[5 + k], ["role"], Str(PollerRoles[k]))
         && Carries(rs[5 + k], ["resource"], props["project_id"])
         && Carries(rs[5 + k], ["member"], Str(PollerMember))
  }

  lemma RenderedRecords(rs: seq<Dict>, v: Variables)
    requires Renders(rs, v)
    ensures DeclaresInOrder(rs) && DistinctNames(rs)
  {
    ResourceNamesDistinct();
  }

  lemma RenderedReferences(rs: seq<Dict>, v: Variables)
    requires Renders(rs, v) && VariablesDollarFree(v)
    ensures RefersExactly(rs) && ForwardRefs(rs)
  {
    RecordsRefs(v);
    DependenciesDeclaredEarlier();
    forall i | 0 <= i < |rs| ensures Payload(rs[i]) == Obj(Records(v)[i].properties) && Named(rs[i], ResourceNames[i]) {
    }
  }

  lemma InputToVariables(props: map<string, Value>, v: Variables)
    requires ReadFrom(props, v) && InputDollarFree(props)
    ensures VariablesDollarFree(v)
  {
  }

  lemma TopicPassesThrough(d: Dict, props: map<string, Value>, v: Variables)
    requires ReadFrom(props, v) && d == AsDict(Topic(v, LocalsOf(v)))
    ensures TopicPasses(d, props)
  {
    TopicCarries(v);
  }

  lemma SubscriptionPassesThrough(d: Dict, props: map<string, Value>, v: Variables)
    requires ReadFrom(props, v) && d == AsDict(Subscription(v))
    ensures SubscriptionPasses(d, props)
  {
    SubscriptionCarries(v);
  }

  lemma SinkPassesThrough(d: Dict, props: map<string, Value>, v: Variables)
    requires ReadFrom(props, v) && d == AsDict(Sink(v, LocalsOf(v)))
    ensures SinkPasses(d, props)
  {
    SinkCarries(v);
  }

  lemma PublisherPassesThrough(d: Dict, props: map<string, Value>, v: Variables)
    requires ReadFrom(props, v) && d == AsDict(SinkPublisher(LocalsOf(v)))
    ensures PublisherPasses(d, props)
  {
    SinkPublisherCarries(v);
  }

  lemma AccountPassesThrough(d: Dict, props: map<string, Value>, v: Variables)
    requires ReadFrom(props, v) && d == AsDict(PollerAccount(v))
    ensures AccountPasses(d, props)
  {
    PollerAccountCarries(v);
  }

  lemma RenderedPassThrough(rs: seq<Dict>, props: map<string, Value>, v: Variables)
    requires Renders(rs, v) && ReadFrom(props, v)
    ensures PassesThrough(rs, props)
  {
    RecordsLayout(v);
    TopicPassesThrough(rs[0], props, v);
    SubscriptionPassesThrough(rs[1], props, v);
    SinkPassesThrough(rs[2], props, v);
    PublisherPassesThrough(rs[3], props, v);
    AccountPassesThrough(rs[4], props, v);
  }

  lemma RenderedBindings(rs: seq<Dict>, props: map<string, Value>, v: Variables)
    requires Renders(rs, v) && ReadFrom(props, v)
    ensures BindsPollerRoles(rs, props)
  {
    var l := LocalsOf(v);
    forall k | 0 <= k < |PollerRoles|
      ensures Carries(rs[5 + k], ["role"], Str(PollerRoles[k]))
      ensures Carries(rs[5 + k], ["resource"], props["project_id"])
      ensures Carries(rs[5 + k], ["member"], Str(PollerMember))
    {
      assert Records(v)[5 + k] == PollerBinding(l, k, PollerRoles[k]);
      assert Payload(rs[5 + k]) == Obj(PollerBinding(l, k, PollerRoles[k]).properties);
      PollerBindingCarries(l, k, PollerRoles[k]);
    }
  }

  lemma SubscriptionFixed(d: Dict, v: Variables)
    requires d == AsDict(Subscription(v))
    ensures Carries(d, ["topic"], Str(Ref(TopicName, "name")))
  {
    LookupStep(Subscription(v).properties, 2, ["topic"]);
  }

  lemma SinkFixed(d: Dict, v: Variables)
    requires d == AsDict(Sink(v, LocalsOf(v)))
    ensures Carries(d, ["destination"], Str("pubsub.googleapis.com/" + Ref(TopicName, "name")))
    ensures Carries(d, ["description"], Str(SinkDescription))
  {
    LookupStep(Sink(v, LocalsOf(v)).properties, 3, ["destination"]);
    LookupStep(Sink(v, LocalsOf(v)).properties, 6, ["description"]);
  }

  lemma SinkPublisherFixed(d: Dict, v: Variables)
    requires d == AsDict(SinkPublisher(LocalsOf(v)))
    ensures Carries(d, ["member"], Str(Ref(SinkName, "writerIdentity")))
  {
    LookupStep(SinkPublisher(LocalsOf(v)).properties, 2, ["member"]);
  }

  lemma PollerAccountFixed(d: Dict, v: Variables)
    requires d == AsDict(PollerAccount(v))
    ensures Carries(d, ["description"], Str(PollerDescription))
  {
    LookupStep(PollerAccount(v).properties, 1, ["description"]);
  }

  lemma PollerKeyFixed(d: Dict)
    requires d == AsDict(PollerKey())
    ensures Carries(d, ["name"], Str("poller"))
    ensures Carries(d, ["parent"], Str(Ref(PollerAccountName, "name")))
  {
    LookupStep(PollerKey().properties, 0, ["name"]);
    LookupStep(PollerKey().properties, 1, ["parent"]);
  }

  lemma RenderedFixedTexts(rs: seq<Dict>, v: Variables)
    requires Renders(rs, v)
    ensures FixedTexts(rs)
  {
    RecordsLayout(v);
    SubscriptionFixed(rs[1], v);
    SinkFixed(rs[2], v);
    SinkPublisherFixed(rs[3], v);
    PollerAccountFixed(rs[4], v);
    PollerKeyFixed(rs[9]);
  }

  /** Everything the descriptor's records satisfy, gathered for GenerateConfig. */
  lemma Rendered(rs: seq<Dict>, props: map<string, Value>, v: Variables)
    requires Renders(rs, v) && ReadFrom(props, v)
    ensures DeclaresInOrder(rs) && DistinctNames(rs)
    ensures OutputsResolve(Descriptor(rs, Outputs))
    ensures PassesThrough(rs, props) && BindsPollerRoles(rs, props)
    ensures FixedTexts(rs)
    ensures InputDollarFree(props) ==> RefersExactly(rs) && ForwardRefs(rs)
  {
    RenderedRecords(rs, v);
    RenderedFixedTexts(rs, v);
    OutputsResolved(rs);
    RenderedPassThrough(rs, props, v);
    RenderedBindings(rs, props, v);
    if InputDollarFree(props) {
      InputToVariables(props, v);
      RenderedReferences(rs, v);
    }
  }

  lemma OutputsResolved(rs: seq<Dict>)
    requires DeclaresInOrder(rs)
    ensures OutputsResolve(Descriptor(rs, Outputs))
  {
    OutputTargetsHaveNoDot();
    forall k | 0 <= k < |Outputs|
      ensures Named(Outputs[k], OutputNames[k])
      ensures OutputValue(Outputs[k]) == Str(Ref(OutputTargets[k], OutputFields[k]))
      ensures forall n :: RefersTo(OutputValue(Outputs[k]), n) <==> n == OutputTargets[k]
    {
      GetFirst(Outputs[k], 0, "name");
      GetFirst(Outputs[k], 1, "value");
      if k == 0 {
        RefRoundTrip("", SubscriptionName, "name");
        assert "" + Ref(SubscriptionName, "name") == Ref(SubscriptionName, "name");
      } else {
        RefRoundTrip("", PollerKeyName, "privateKeyData");
        assert "" + Ref(PollerKeyName, "privateKeyData") == Ref(PollerKeyName, "privateKeyData");
      }
    }
    assert Named(rs[1], OutputTargets[0]);
    assert Named(rs[9], OutputTargets[1]);
  }

  /**
   * Appends the ten records in declaration order: the topic, subscription,
   * sink, sink publisher binding and poller account, then one binding per
   * poller role, then the poller key.
   */
  method RenderRecords(v: Variables) returns (resources: seq<Dict>)
    ensures Renders(resources, v)
  {
    var local := LocalsOf(v);
    RecordsLayout(v);
    resources := [];
    resources := resources + [AsDict(Topic(v, local))];
    resources := resources + [AsDict(Subscription(v))];
    resources := resources + [AsDict(Sink(v, local))];
    resources := resources + [AsDict(SinkPublisher(local))];
    resources := resources + [AsDict(PollerAccount(v))];
    for i := 0 to |PollerRoles|
      invariant |resources| == 5 + i
      invariant forall k :: 0 <= k < |resources| ==> resources[k] == AsDict(Records(v)[k])
    {
      resources := resources + [AsDict(PollerBinding(local, i, PollerRoles[i]))];
    }
    resources := resources + [AsDict(PollerKey())];
  }

  /** Builds the descriptor: checks the parameters, renders the records and adds the two outputs. */
  method GenerateConfig(context: Option<map<string, Value>>) returns (r: Result<Descriptor, Error>)
    ensures r.Failure? <==> Rejection(PropertiesOf(context)).Some?
    ensures r.Failure? ==> Rejection(PropertiesOf(context)) == Some(r.error)
    ensures r.Success? ==> DeclaresInOrder(r.value.resources) && DistinctNames(r.value.resources)
    ensures r.Success? ==> OutputsResolve(r.value)
    ensures r.Success? ==> PassesThrough(r.value.resources, PropertiesOf(context))
    ensures r.Success? ==> BindsPollerRoles(r.value.resources, PropertiesOf(context))
    ensures r.Success? ==> FixedTexts(r.value.resources)
    ensures r.Success? ==> r.value.outputs == Outputs
    ensures r.Success? ==>
              exists v :: ReadFrom(PropertiesOf(context), v) && Renders(r.value.resources, v)
    ensures r.Success? && InputDollarFree(PropertiesOf(context)) ==>
              RefersExactly(r.value.resources) && ForwardRefs(r.value.resources)
  {
    var v :- GetVariables(context);
    var resources := RenderRecords(v);
    Rendered(resources, PropertiesOf(context), v);
    r := Success(Descriptor(resources, Outputs));
  }
}
