# Observe collection template for Google Cloud Deployment Manager

This is a Dafny model of a Python template for Google Cloud Deployment Manager. The template sets up log and metric collection for a project. It reads the deployment's properties and returns a deployment descriptor with two parts:

- ten resources: a Pub/Sub topic, its subscription, a logging sink exporting to the topic, a binding that lets the sink publish, a poller service account, four role bindings for that account, and a key for it;
- two outputs: the subscription id and the poller key.

Later resources name earlier ones through Deployment Manager placeholders of the form `$(ref.<resource>.<field>)`.

The model is split into these modules:

- `Wrappers`: `Option` and `Result`.
- `Json`: property values as a small JSON-like datatype.
  - `Null` stands for Python's `None`.
  - A dictionary is an ordered sequence of key/value pairs. This matches Python's insertion order. `Get` returns the first binding.
  - `Lookup` follows a key path through nested dictionaries.
- `References`: the placeholder syntax `Ref`, and `RefsIn`, a scanner that lists the resource names the placeholders in a text refer to.
  - `RefersTo` lifts `RefsIn` to nested values.
  - The lemmas prove that a placeholder reads back as the name it was built from, and that text without `$` refers to nothing.
- `Params`: parameter extraction (`get_variables` and `Locals`). `GetVariables` is a method that reads each setting in the source's order, with early returns for the failures. `Rejection` states, as a function, which rule fails first.
- `Resources`: a resource record and its dictionary form (`Resource.as_dict`), with the inverse `FromDict` and a round trip in both directions.
- `Template`: descriptor assembly (`GenerateConfig`).
  - `RenderRecords` appends the records one at a time and loops over the poller roles, as the source does.
  - Its loop invariant ties the list built so far to `Records`, the functional specification of the ten records.
  - `GenerateConfig` returns the descriptor, or the first parameter error.
  - The lemmas about `Records` prove the declaration order, distinct names, resolvable outputs and which parameters each record carries. When the parameters hold no `$`, they also prove the exact references of each record and that references only point forward.

`context.properties` is an `Option<map<string, Value>>`. `None` reads as an empty map.

## Model

| member | source | states |
|---|---|---|
| Params.GetVariables | main.py:21-51 | Fails exactly when some rule is broken, and the error is the first broken rule in source order. On success, every parameter is the caller's value or its default (`observe-collection`, `{}`, 60, `""`, `[]`, `86400s`, `10s`, `600s`). project_id and region are the caller's values. The name has at most 20 characters. A missing properties mapping fails on project_id. |
| Params.Rejection | main.py:32-49 | No error exactly when the name is text of at most 20 characters and both project_id and region are present. NameNotText exactly when the name is not text. NameTooLong exactly when the name is text longer than 20 characters, whatever else is missing. MissingKey("project_id") exactly when the name is usable and project_id is absent. MissingKey("region") exactly when the name is usable, project_id is present and region is absent. |
| Params.Setting | main.py:32-45 | A property's value is the caller's when the key is present (even when it is null), and the default otherwise. |
| Params.LocalsFromProperties | main.py:54-57 | The locals are the caller's project_id and region. Both are present whenever the parameters were read successfully. |
| Params.RequiredOnly | main.py:32-45 | With only project_id and region given, every other parameter takes its default value. |
| Resources.AsDict | main.py:70-78 | The dictionary holds name, type and properties exactly as given. It has a metadata key iff metadata is not None, and then holds that value. Its keys are exactly name, type, properties[, metadata] in that order. FromDict recovers the resource. |
| Resources.DictRoundTrip | main.py:70-78 | Any dictionary with exactly the canonical keys, whose name and type are text and whose properties are a dictionary, where a metadata entry is not null, is the AsDict of the resource FromDict reads from it. |
| References.RefRoundTrip | main.py:108 | A placeholder built from a dot-free resource name, after dollar-free text and with a dollar-free field, refers to exactly that name. |
| References.DollarFreeRefersToNothing | main.py:123-130 | A value whose texts contain no `$` refers to no resource. Caller values passed through verbatim therefore add no references. |
| Template.Records | main.py:85-182 | Exactly ten records, named and typed in the fixed declaration order, none with metadata. |
| Template.RenderRecords | main.py:85-182 | The appended list is, entry by entry, the dictionary form of Records. |
| Template.GenerateConfig | main.py:81-195 | Fails iff the parameters are rejected, with the same error. On success: ten records in order with distinct names; outputs resolving to declared records; parameters passed through; poller roles bound in order; the template's own texts fixed (see RenderedFixedTexts); the outputs exactly the two listed, with the fields they name. The records are the dictionary form of Records for parameters read from the caller's properties. When none of the properties the template reads holds `$` (other properties may), each record refers exactly to its dependencies, all of them declared earlier. |
| Template.ResourceNamesDistinct | main.py:85-182 | The ten resource names are pairwise distinct, including the four indexed poller bindings. |
| Template.DependenciesDeclaredEarlier | main.py:105-182 | Every dependency of record i is the name of some record j < i. |
| Template.RecordsRefs | main.py:105-182 | When the parameters hold no `$`, record i's properties refer to resource n iff n is one of its dependencies. The subscription and sink refer to the topic, the sink binding to the sink, the poller bindings and key to the poller account, and the rest to nothing. |
| Template.PollerBindingRefs | main.py:162-171 | When the parameters and the role hold no `$`, a poller binding refers to the poller account and to nothing else. |
| Template.TopicCarries | main.py:91-97 | The topic carries the name and labels, and `messageStoragePolicy.allowedPersistenceRegions` is exactly `[region]`. |
| Template.SubscriptionCarries | main.py:105-115 | The subscription carries the name, labels, ack deadline and retention. `retryPolicy` holds the minimum and maximum backoff. |
| Template.SinkCarries | main.py:122-131 | The sink's parent is the project id. Its name and sink are the name. uniqueWriterIdentity is true. It carries the filter and the exclusions. |
| Template.SinkPublisherCarries | main.py:138-142 | The sink publisher binding is on the project with role `roles/pubsub.publisher`. |
| Template.PollerAccountCarries | main.py:150-153 | The poller accountId is the name followed by `-poll`. |
| Template.PollerBindingCarries | main.py:166-170 | A poller binding has the project as resource, its role, and the poller-email member placeholder. |
| Template.RenderedRecords | main.py:85-182 | Rendered records are declared in order, carry no metadata key, and have distinct names. |
| Template.RenderedReferences | main.py:105-182 | When the parameters hold no `$`, rendered records refer exactly to their dependencies, and only to records declared earlier. |
| Template.RenderedPassThrough | main.py:91-153 | The rendered records carry each parameter as given, or its default, at the places listed above. |
| Template.RenderedBindings | main.py:156-171 | Binding k carries role k of the four poller roles in order, the project id as resource, and the poller member. |
| Template.OutputsResolved | main.py:186-195 | The outputs are `subscription_id` and `poller_private_key_base64`. Their values are the placeholders for the subscription's `name` and the poller key's `privateKeyData`. Each refers exactly to that record, and both records are declared. |
| Template.RenderedFixedTexts | main.py:105-182 | The rendered records carry the template's own texts: the subscription's topic placeholder (`.name`), the sink's `pubsub.googleapis.com/` destination and description, the sink binding's `.writerIdentity` member, the poller account's description, and the key's name `poller` and parent placeholder (`.name`). |
| Template.InputToVariables | main.py:32-49 | When no caller value holds `$`, neither do the parameters, since the defaults hold none. |

## Left out

- `enable_extensions` (main.py:46) is read but never changes the descriptor, and extensions are a TODO in the source. The model does not read it.
- The Deployment Manager `context` object, the engine that resolves placeholders, and the creation of resources are external. The model takes `context.properties` as its input.
- Python exception types and message texts are reduced to the tagged errors `NameTooLong` and `MissingKey`.
- Params.GetVariables and Params.Rejection: a `name` that is not text is rejected as `NameNotText`. Python raises a TypeError for numbers, booleans and None. It accepts a list or dictionary of at most 20 elements, copies it verbatim into the topic, subscription, sink `name` and `sink` fields, and formats it into `accountId`. The model does not follow that path.
- Runtime types of the other parameters (labels, exclusions, ack deadline and so on) are not checked. They are carried as opaque JSON values, as the source does.
- Template.GenerateConfig: exact references and forward-only references are proved only when no property the template reads contains `$`. Those values are copied verbatim, so a caller can inject a placeholder of their own.
- References.RefersTo does not scan dictionary keys, only values.
- References.NameAt: a placeholder name is read up to the next `.` anywhere later in the text, or to its end, so a malformed placeholder such as `$(ref.a) b.c` reads the name `a) b`.
- The error message says the name must be "less than 20 characters", but the guard rejects only names longer than 20. The model follows the guard: exactly 20 characters is accepted.
- The descriptor's top level is a Dafny datatype with `resources` and `outputs` fields, not a third JSON dictionary.
