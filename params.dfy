/**
 * Template parameters: the typed view of the deployment's properties, with
 * the defaults and the validation the template applies before it builds
 * any record (main.py, Variables, get_variables and Locals).
 */
module Params {
  import opened Wrappers
  import opened Json

  const DefaultName: string := "observe-collection"
  const MaxNameLength: nat := 20

  /** Why the properties were refused. */
  datatype Error =
    | NameNotText        // `name` is not text; the model refuses every such name (see README, Left out)
    | NameTooLong        // `name` has more than MaxNameLength characters
    | MissingKey(key: string)  // a required property is absent

  /**
   * The parameters after defaulting. Only `name` is typed (its length is
   * checked and it is formatted into other text); the others are carried
   * as the values the caller supplied.
   */
  datatype Variables = Variables(
    name: string,
    labels: Value,
    ackDeadlineSeconds: Value,
    loggingFilter: Value,
    loggingExclusions: Value,
    messageRetentionDuration: Value,
    minimumBackoff: Value,
    maximumBackoff: Value,
    projectId: Value,
    region: Value)

  /** Values derived from the parameters once, before the records are built. */
  datatype Locals = Locals(project: Value, region: Value)

  function LocalsOf(v: Variables): Locals
  {
    Locals(v.projectId, v.region)
  }

  /** The deployment's properties; a missing mapping reads as an empty one. */
  function PropertiesOf(context: Option<map<string, Value>>): map<string, Value>
  {
    if context.Some? then context.value else map[]
  }

  /** Dictionary lookup with a fallback: a key bound to null keeps its null. */
  function Setting(props: map<string, Value>, key: string, default: Value): (x: Value)
    ensures Defaulted(props, key, x, default)
  {
    if key in props then props[key] else default
  }

  /** `value` is what the caller gave for `key`, or `default` when the key is absent. */
  ghost predicate Defaulted(props: map<string, Value>, key: string, value: Value, default: Value)
  {
    (key in props ==> value == props[key]) && (key !in props ==> value == default)
  }

  /**
   * The first rule the properties break, in the order the template checks
   * them: the name is checked as soon as it is read, so an unusable name is
   * reported before a missing project id or region, and a missing project
   * id before a missing region. A name of exactly MaxNameLength characters
   * is accepted.
   */
  function Rejection(props: map<string, Value>): (e: Option<Error>)
    ensures e.None? <==>
              && Setting(props, "name", Str(DefaultName)).Str?
              && |Setting(props, "name", Str(DefaultName)).s| <= MaxNameLength
              && "project_id" in props && "region" in props
    ensures e == Some(NameTooLong) <==>
              Setting(props, "name", Str(DefaultName)).Str? && |Setting(props, "name", Str(DefaultName)).s| > MaxNameLength
    ensures e == Some(NameNotText) <==> !Setting(props, "name", Str(DefaultName)).Str?
    ensures e == Some(MissingKey("project_id")) <==>
              && Setting(props, "name", Str(DefaultName)).Str?
              && |Setting(props, "name", Str(DefaultName)).s| <= MaxNameLength
              && "project_id" !in props
    ensures e == Some(MissingKey("region")) <==>
              && Setting(props, "name", Str(DefaultName)).Str?
              && |Setting(props, "name", Str(DefaultName)).s| <= MaxNameLength
              && "project_id" in props && "region" !in props
  {
    var name := Setting(props, "name", Str(DefaultName));
    if !name.Str? then Some(NameNotText)
    else if |name.s| > MaxNameLength then Some(NameTooLong)
    else if "project_id" !in props then Some(MissingKey("project_id"))
    else if "region" !in props then Some(MissingKey("region"))
    else None
  }

  /** The properties the template reads into its parameters. */
  const ReadKeys: set<string> :=
    {"name", "labels", "pubsub_ack_deadline_seconds", "logging_filter", "logging_exclusions",
     "pubsub_message_retention_duration", "pubsub_minimum_backoff", "pubsub_maximum_backoff",
     "project_id", "region"}

  /** `v` holds, for every parameter, the caller's value or its default. */
  ghost predicate ReadFrom(props: map<string, Value>, v: Variables)
  {
    && Defaulted(props, "name", Str(v.name), Str(DefaultName))
    && |v.name| <= MaxNameLength
    && Defaulted(props, "labels", v.labels, Obj([]))
    && Defaulted(props, "pubsub_ack_deadline_seconds", v.ackDeadlineSeconds, Int(60))
    && Defaulted(props, "logging_filter", v.loggingFilter, Str(""))
    && Defaulted(props, "logging_exclusions", v.loggingExclusions, List([]))
    && Defaulted(props, "pubsub_message_retention_duration", v.messageRetentionDuration, Str("86400s"))
    && Defaulted(props, "pubsub_minimum_backoff", v.minimumBackoff, Str("10s"))
    && Defaulted(props, "pubsub_maximum_backoff", v.maximumBackoff, Str("600s"))
    && "project_id" in props && v.projectId == props["project_id"]
    && "region" in props && v.region == props["region"]
  }

  /** The locals are the caller's project id and region. */
  lemma LocalsFromProperties(props: map<string, Value>, v: Variables)
    requires ReadFrom(props, v)
    ensures "project_id" in props && "region" in props
    ensures LocalsOf(v) == Locals(props["project_id"], props["region"])
  {
  }

  /** With only the two required properties given, every other parameter takes its default. */
  lemma RequiredOnly(project: Value, region: Value, v: Variables)
    requires ReadFrom(map["project_id" := project, "region" := region], v)
    ensures v == Variables(DefaultName, Obj([]), Int(60), Str(""), List([]),
                           Str("86400s"), Str("10s"), Str("600s"), project, region)
  {
  }

  /**
   * Reads the parameters field by field, failing with the first broken
   * rule; with no properties at all the project id is reported missing.
   */
  method GetVariables(context: Option<map<string, Value>>) returns (r: Result<Variables, Error>)
    ensures context.None? ==> r == Failure(MissingKey("project_id"))
    ensures r.Failure? <==> Rejection(PropertiesOf(context)).Some?
    ensures r.Failure? ==> Rejection(PropertiesOf(context)) == Some(r.error)
    ensures r.Success? ==> ReadFrom(PropertiesOf(context), r.value)
  {
    var properties: map<string, Value> := map[];
    if context.Some? {
      properties := context.value;
    }

    var name := Setting(properties, "name", Str(DefaultName));
    if !name.Str? {
      return Failure(NameNotText);
    }
    if |name.s| > MaxNameLength {
      return Failure(NameTooLong);
    }
    var labels := Setting(properties, "labels", Obj([]));
    var ackDeadlineSeconds := Setting(properties, "pubsub_ack_deadline_seconds", Int(60));
    var loggingFilter := Setting(properties, "logging_filter", Str(""));
    var loggingExclusions := Setting(properties, "logging_exclusions", List([]));
    var messageRetentionDuration := Setting(properties, "pubsub_message_retention_duration", Str("86400s"));
    var minimumBackoff := Setting(properties, "pubsub_minimum_backoff", Str("10s"));
    var maximumBackoff := Setting(properties, "pubsub_maximum_backoff", Str("600s"));

    if "project_id" !in properties {
      return Failure(MissingKey("project_id"));
    }
    var projectId := properties["project_id"];
    if "region" !in properties {
      return Failure(MissingKey("region"));
    }
    var region := properties["region"];

    r := Success(Variables(name.s, labels, ackDeadlineSeconds, loggingFilter, loggingExclusions,
                           messageRetentionDuration, minimumBackoff, maximumBackoff, projectId, region));
  }
}
