# graph-azure core, modelled in Dafny

This project models four parts of the JupiterOne Azure integration (graph-azure).

- **Network entity builders** (`src/converters/resources/network.ts`). Each builder turns one Azure network resource into one entity record:
  - load balancer, network interface, public IP address, subnet, network security group and virtual network;
  - the public and private IP helpers.
- **Active Directory converters** (`src/steps/active-directory/converters.ts`):
  - the account entity, with and without the organization;
  - group, user and service-principal entities;
  - the account-to-group and account-to-user relationships.
- **Recording path normaliser** (`test/helpers/recording.ts`):
  - `getMatchRequestsBy`, which merges the default request-matching options with the caller's options;
  - the pathname rewrite, which replaces the directory id and, conditionally, the subscription id;
  - `defaultShouldReplaceSubscriptionId`.
- **Step handlers over the job state**:
  - the five event-grid fetch handlers and the event-grid step descriptors (`src/steps/resource-manager/event-grid/index.ts`);
  - the advisor recommendation handler and its step descriptor (`src/steps/resource-manager/advisor/index.ts`).

## Modules

| module | contents |
|---|---|
| `Wrappers` | `Option` and `Nullable`. `Nullable` tells JavaScript's `undefined` and `null` apart. It also holds JavaScript truthiness for optional strings. |
| `Sdk` | The entity and relationship records the SDK builds, and the `Helpers` record. The format of a direct relationship's `_key` is modelled, together with its injectivity. |
| `Words` | Splitting on a single space, and joining back. This models `displayName.split(' ')`. |
| `Network` | The network builders. |
| `Directory` | The Active Directory converters. |
| `Recording` | First-occurrence `String.replace`, the pathname normaliser and the options merge. |
| `Jobs` | The job state: a class holding a sequence of entities and a sequence of relationships, with `addEntity`, `addRelationship`, `findEntity` and iteration by `_type`. |
| `StepGraph` | Step descriptors, and a proof that a list in which every dependency points to an earlier step has no dependency cycle. |
| `EventGrid` | One generic nested loop, proved against a specification function. The five handlers instantiate it. The module also holds the step list. |
| `Advisor` | The recommendation loop, proved equal to a fold over the recommendations. The module also holds the step descriptor. |

## Modelling conventions

**Helpers whose code is not part of this model.** These are `generateEntityKey`, `generateRelationshipType`, `resourceGroupName`, `getEventGridDomainNameFromId`, `webLinker.portalResourceUrl` and `getTime`. Each is a field of the `Helpers` record, an arbitrary deterministic function, and contracts are stated relative to it. API clients are given functions from a parent to its sequence of children, and entity converters are given functions too.

**Constants defined in files that are not part of this model.** Examples are `ACCOUNT_ENTITY_TYPE`, `STEP_AD_ACCOUNT`, `STEP_RM_RESOURCES_RESOURCE_GROUPS` and the advisor constants. Each is a string equal to its own name, so the proofs treat them as distinct identifiers. The event-grid `_type` strings and step ids are copied from `src/steps/resource-manager/event-grid/constants.ts`. The resource-group `_type` `azure_resource_group` is the one the key-vault test expects.

**`STEP_RM_EVENT_GRID_DOMAIN_TOPIC_SUBSCRIPTIONS` and `DOMAIN_TOPIC_HAS_SUBSCRIPTION`.** The event-grid index uses both, but the event-grid constants file defines neither. They are modelled as distinct opaque identifiers. The step list stays well formed: its ids are distinct and its dependencies are acyclic.

**JavaScript semantics written out:**
- `||` tests truthiness, so an empty string falls through to the next operand. `??` tests only for `null`/`undefined`.
- A template string renders `undefined` as `"undefined"` and `false` as `"false"`.
  - A subnet without an address prefix therefore shows `"name (undefined)"`.
  - A virtual network whose `addressPrefixes` is an empty list shows `"name (false)"`, because the `&&` chain yields `false`.
  - The `Cidr` datatype keeps the three cases (undefined, `false`, a prefix) apart.
- `String.replace` with a string pattern replaces only the first occurrence. An empty pattern matches at position 0. This is modelled for every `directoryId`, including the empty one, so nothing is required of the configuration.
- The object spread `{ headers: false, url: …, ...options }` lets every field that is present in `options` win.

**SDK behaviour.** `createIntegrationEntity` with `tagProperties: ["environment"]` is read as copying `tags["environment"]` when it is present. The `_key` of a direct relationship is `fromKey + "|" + verb + "|" + toKey`, where the verb is the lower-case class name. This is the format the key-vault test expects.

**Job-state iteration.** `iterateEntities({ _type })` is modelled as a snapshot of the entities of that `_type`, taken when the handler starts. Every handler adds entities of a different `_type` from the one it iterates, so the snapshot and live iteration visit the same parents.

## Model

| member | source | states |
|---|---|---|
| Sdk.RelationshipKey | src/steps/resource-manager/key-vault/index.test.ts:94-101 | The key starts with the from-key, ends with the to-key, and has the length of the two keys plus the verb and two separators. |
| Sdk.RelationshipKeyInjective | src/steps/resource-manager/key-vault/index.test.ts:94-101 | When the from-keys contain no bar, equal relationship keys come only from equal (from-key, class, to-key) triples. |
| Sdk.DirectRelationship | src/steps/active-directory/converters.ts:173-182 | A direct relationship carries the given class, endpoints and types. Its key is the relationship-key format. Its `_type` is the explicit override when one is given, otherwise the generated type. |
| Sdk.DirectRelationshipBetween | src/steps/resource-manager/event-grid/index.ts:91-97 | A direct relationship between two entities runs from the first entity's key and type to the second's. Its `_type` is the override when given, and otherwise the SDK's type for the class and the two entity types. |
| Words.SplitOnSpace | src/steps/active-directory/converters.ts:122-123 | `split(' ')` always yields at least one piece, and no piece contains a space. |
| Words.JoinSplit | src/steps/active-directory/converters.ts:122-123 | Joining the pieces of a split with single spaces gives back the original string. |
| Words.SplitJoin | src/steps/active-directory/converters.ts:122-123 | Splitting a join of space-free pieces gives back those pieces. |
| Words.FirstPieceFacts | src/steps/active-directory/converters.ts:122 | The first piece is a prefix of the string that ends at the first space or at the end. |
| Words.LastPieceFacts | src/steps/active-directory/converters.ts:123 | The last piece is a suffix of the string that starts after the last space or at the start. |
| Words.FirstWord | src/steps/active-directory/converters.ts:122 | `split(' ')[0]` is a space-free prefix that ends at a space or at the end of the string. |
| Words.LastWord | src/steps/active-directory/converters.ts:123 | `split(' ').slice(-1)[0]` is a space-free suffix that starts after a space or at the start of the string. |
| Network.CidrDisplayName | src/converters/resources/network.ts:139 | `${name} (${CIDR})`: the rendered name, then ` (`, then the rendered CIDR, then `)`. |
| Network.CidrDisplayNameDeterminesCidr | src/converters/resources/network.ts:139 | For one name, equal display names mean equal rendered CIDRs. |
| Network.TagValue | src/converters/resources/network.ts:146 | `tags && tags[tag]` is present exactly when the tags exist and hold the key, and is then that tag's value. |
| Network.PublicIps | src/converters/resources/network.ts:209-218 | The filter-and-project yields at most one address per configuration. |
| Network.PrivateIps | src/converters/resources/network.ts:220-226 | The private addresses are non-empty, and there are no more of them than configurations. |
| Network.PublicIpAddresses | src/converters/resources/network.ts:209-218 | Undefined configurations give the empty list. Otherwise there is at most one address per configuration. |
| Network.PrivateIpAddresses | src/converters/resources/network.ts:220-226 | Undefined configurations give the empty list. Otherwise there are at most as many addresses as configurations, and each is non-empty. |
| Network.PublicIpsAppend | src/converters/resources/network.ts:209-218 | The public IPs of concatenated lists are the public IPs of each list, in order. |
| Network.PrivateIpsAppend | src/converters/resources/network.ts:220-226 | The private IPs of concatenated lists are the private IPs of each list, in order. |
| Network.PublicIpsSingle | src/converters/resources/network.ts:212-217 | A single configuration contributes its `ipAddress` exactly when it carries a public IP. |
| Network.PrivateIpsSingle | src/converters/resources/network.ts:223-225 | A single configuration contributes its private address exactly when that address is truthy. |
| Network.PublicIpsEmptyIff | src/converters/resources/network.ts:209-218 | The public list is empty if and only if no configuration carries a public IP. |
| Network.PrivateIpsEmptyIff | src/converters/resources/network.ts:220-226 | The private list is empty if and only if no configuration has a truthy private address. |
| Network.PublicIpAddressesEmptyIff | src/converters/resources/network.ts:209-218 | The helper returns an empty list if and only if no frontend configuration carries a public IP. |
| Network.CreateLoadBalancerEntity | src/converters/resources/network.ts:38-66 | `_key` is the resource id, and category and function are fixed. `public` holds exactly when `publicIp` is non-empty, which is exactly when some frontend configuration has a public IP. The IP lists come from the helpers. |
| Network.LoadBalancerScenario | src/converters/resources/network.ts:38-66 | For two frontend configurations, one carrying only public IP 1.2.3.4 and one carrying only private IP 10.0.0.4, the entity lists exactly those addresses and is public. |
| Network.CreateNetworkInterfaceEntity | src/converters/resources/network.ts:68-98 | `_key` is the resource id. `privateIp` and `privateIpAddress` are the same helper list. `publicIp` is absent. The VM and security-group ids are present exactly when the sub-resources carry them, and then equal their ids. |
| Network.CreatePublicIPAddressEntity | src/converters/resources/network.ts:100-124 | `_key` is the resource id. The entity is always public. `publicIp` and `publicIpAddress` both equal `ipAddress`. `sku` equals the SKU's name whenever the SKU is present, and is absent otherwise. |
| Network.CreateSubnetEntity | src/converters/resources/network.ts:126-150 | The subnet is not public and is internal. Its CIDR is its address prefix. Its display name is `name (CIDR)`. Region and environment come from the parent virtual network. |
| Network.SubnetDisplayName | src/converters/resources/network.ts:131-141 | With a name and a prefix, the display name is `name + " (" + prefix + ")"`. |
| Network.SubnetsInheritFromNetwork | src/converters/resources/network.ts:145-146 | Two subnets of one virtual network get the same region and environment, whatever their own data. |
| Network.SecurityGroupCategory | src/converters/resources/network.ts:156-162 | "network" is present if and only if subnets are attached, and "host" if and only if interfaces are. There are no other values and no duplicates, "network" comes first, and there are at most two. |
| Network.CreateNetworkSecurityGroupEntity | src/converters/resources/network.ts:152-178 | The category is the attachment-derived list. Region and environment come from the group's own data. |
| Network.VirtualNetworkCidr | src/converters/resources/network.ts:184-188 | The CIDR is the first address prefix exactly when the list is non-empty. It is `false` exactly when the list exists but is empty. Otherwise it is undefined. |
| Network.CreateVirtualNetworkEntity | src/converters/resources/network.ts:180-207 | The network is not public and is internal. Its CIDR comes from its address space. Its display name is `name (CIDR)`. Region and environment come from its own data. |
| Network.VirtualNetworkDisplayName | src/converters/resources/network.ts:184-196 | With a non-empty prefix list, the display name is `name (first prefix)`. |
| Network.VirtualNetworkEmptyPrefixes | src/converters/resources/network.ts:184-196 | With an empty prefix list, the display name is `name (false)`. |
| Directory.CreateAccountEntity | src/steps/active-directory/converters.ts:34-47 | `_key` is the generated key of the instance id. Name and display name are the instance name. No organization fields and no raw data. |
| Directory.LastDefaultDomain | src/steps/active-directory/converters.ts:54-58 | A default domain, when there is one, is the name of a domain flagged `isDefault`. |
| Directory.LastDefaultDomainIsLastFlagged | src/steps/active-directory/converters.ts:54-58 | With no domain flagged default, the default domain is absent. Otherwise it is the name of the last flagged domain. |
| Directory.DomainNames | src/steps/active-directory/converters.ts:55-60 | The verified domain names have the same length and order as the organization's domains. Absent domains give an empty list. |
| Directory.CreateAccountEntityWithOrganization | src/steps/active-directory/converters.ts:49-86 | The loop computes the same `_key` as the plain account builder. It keeps every domain name in order and picks the last default domain. Raw security-defaults data is attached exactly when it is supplied. |
| Directory.Email | src/steps/active-directory/converters.ts:100 | `mail ?? undefined` is present exactly when `mail` is a value, including the empty string, and then equals it. |
| Directory.CreateGroupEntity | src/steps/active-directory/converters.ts:88-105 | The group's `_key` is the generated key of its id. Email is present exactly when `mail` is non-null, and then equals it. |
| Directory.FirstName | src/steps/active-directory/converters.ts:122 | A non-empty given name wins. Otherwise the first word of the display name is used, and with no display name the result is absent. |
| Directory.LastName | src/steps/active-directory/converters.ts:123 | A non-empty surname wins. Otherwise the last word of the display name is used, and with no display name the result is absent. |
| Directory.CreateUserEntity | src/steps/active-directory/converters.ts:107-139 | The user's `_key` is the generated key of its id. Email, first name and last name follow the rules above. Raw registration details are attached exactly when supplied. |
| Directory.CreateServicePrincipalEntity | src/steps/active-directory/converters.ts:141-164 | Function, user type and category are fixed. Name and display name are the display name. App id and principal names are copied. |
| Directory.CreateAccountGroupRelationship | src/steps/active-directory/converters.ts:166-183 | Class HAS, from the account key to the group's generated key. The `_type` is the account-group type, and the key is `account key + "\|has\|" + group key`. |
| Directory.CreateAccountUserRelationship | src/steps/active-directory/converters.ts:185-199 | Class HAS, from the account key to the user's generated key. The `_type` is generated from the class and the two entity types. |
| Directory.AccountGroupEdgeTargetsGroup | src/steps/active-directory/converters.ts:170-180 | The edge's target key is the `_key` the group builder gives the same group. |
| Directory.AccountGroupEdgeKeysDetermineTarget | src/steps/active-directory/converters.ts:166-183 | For one account, equal edge keys mean equal group keys. |
| Recording.DefaultShouldReplaceSubscriptionId | test/helpers/recording.ts:92-119 | False exactly when the path starts with `//subscriptions`. |
| Recording.IndexOfFrom | test/helpers/recording.ts:78 | Finds the first occurrence of the pattern at or after a position, or reports that none exists. |
| Recording.ReplaceFirst | test/helpers/recording.ts:78 | `String.replace` with a string pattern: without an occurrence the string is unchanged; with one, the length changes by the difference between replacement and pattern. |
| Recording.ReplaceFirstAbsent | test/helpers/recording.ts:78 | Without an occurrence of the pattern, `replace` leaves the string unchanged. |
| Recording.ReplaceFirstAt | test/helpers/recording.ts:78 | `replace` substitutes exactly the first occurrence. |
| Recording.ReplaceFirstSelf | test/helpers/recording.ts:80-83 | Replacing a pattern with itself changes nothing. |
| Recording.SubscriptionPattern | test/helpers/recording.ts:81-82 | The pattern is the subscription id when it is truthy, and `subscription-id` otherwise. |
| Recording.ReplaceDirectoryId | test/helpers/recording.ts:78 | A path without the directory id is unchanged. Otherwise `directory-id` stands at the first occurrence, and the text before it is kept. |
| Recording.NormalizePathname | test/helpers/recording.ts:77-86 | The directory id is replaced first. The subscription id is replaced only when the predicate holds on the directory-normalised path. |
| Recording.DirectoryStepKeepsOtherPaths | test/helpers/recording.ts:78 | A path without the directory id is unchanged by the first step. |
| Recording.NoSubscriptionIdOnlyDirectory | test/helpers/recording.ts:80-83 | Without a subscription id, only the directory replacement has any effect. |
| Recording.ExactResourcePathKeepsSubscription | test/helpers/recording.ts:79-84 | With the default predicate, a path whose directory-normalised form starts with `//subscriptions` keeps its subscription id: the result is the directory-normalised path. |
| Recording.ShouldReplace | test/helpers/recording.ts:67 | A caller-supplied predicate is used instead of the default. |
| Recording.GetMatchRequestsBy | test/helpers/recording.ts:65-90 | `headers` is `false` and `url` is the normaliser unless `options` supplies them. Every field present in `options` wins. |
| Jobs.FindByKey | src/steps/resource-manager/advisor/index.ts:36-38 | The lookup finds an entity with the key, or reports that none exists. An absent key finds nothing. |
| Jobs.OfType | src/steps/resource-manager/event-grid/index.ts:47-49 | Exactly the entities of the `_type`. |
| Jobs.FindByKeyAppend | src/steps/resource-manager/advisor/index.ts:52-54 | Adding entities does not change what an earlier successful lookup finds. |
| Jobs.JobState.AddEntity | src/steps/resource-manager/advisor/index.ts:32-34 | Appends one entity. Relationships are unchanged. |
| Jobs.JobState.AddRelationship | src/steps/resource-manager/advisor/index.ts:40-49 | Appends one relationship. Entities are unchanged. |
| Jobs.JobState.FindEntity | src/steps/resource-manager/advisor/index.ts:36-38 | An entity of the state with that key, or none when no entity has it. |
| Jobs.OfTypeAppend | src/steps/resource-manager/event-grid/index.ts:47-49 | Entities of the type are visited in the order they were added: an entity added last comes last, and only when it has the type. |
| Jobs.JobState.EntitiesOfType | src/steps/resource-manager/event-grid/index.ts:47-49 | An entity is visited exactly when it is in the state and has the `_type`. |
| StepGraph.PathDescends | src/steps/resource-manager/event-grid/index.ts:213-271 | Along a dependency chain of a list whose dependencies point backwards, positions strictly decrease. |
| StepGraph.Acyclic | src/steps/resource-manager/event-grid/index.ts:213-271 | Such a list has no dependency cycle and no self-dependency. |
| EventGrid.Additions | src/steps/resource-manager/event-grid/index.ts:48-66 | The number of additions is the number of children the client yields for the admitted parents. |
| EventGrid.AdditionsAppend | src/steps/resource-manager/event-grid/index.ts:48-66 | Handling two runs of parents in turn adds the first run's children, then the second's. |
| EventGrid.AdditionsSingle | src/steps/resource-manager/event-grid/index.ts:115-119 | A parent contributes its children in client order if the guard admits it, and nothing otherwise. |
| EventGrid.AdditionsOrigin | src/steps/resource-manager/event-grid/index.ts:48-66 | Every addition pairs an iterated, admitted parent with the conversion of one of that parent's children. |
| EventGrid.AddChildren | src/steps/resource-manager/event-grid/index.ts:50-63 | The client-callback loop for one parent appends each child's entity, then its edge, in client order. |
| EventGrid.FetchChildren | src/steps/resource-manager/event-grid/index.ts:48-66 | The job state grows by exactly the specified children, then their edges, in parent then child order. It adds one edge per entity. |
| EventGrid.FetchEventGridDomains | src/steps/resource-manager/event-grid/index.ts:39-67 | Each resource group adds one domain entity, then its resource-group edge, per domain. |
| EventGrid.ResourceGroupEdgesFollowChildren | src/steps/resource-manager/event-grid/index.ts:57-62 | Each resource-group edge is built from the entity added just before it. |
| EventGrid.FetchEventGridDomainTopics | src/steps/resource-manager/event-grid/index.ts:69-101 | Each domain adds one topic entity, then a HAS edge, per topic. |
| EventGrid.ParentHasEdge | src/steps/resource-manager/event-grid/index.ts:91-97 | The edge is a HAS edge from the parent's key and type to the child's key and type. Its key is `parent key + "\|has\|" + child key` and its `_type` is the SDK's type for HAS between the two entity types. |
| EventGrid.ParentHasEdgesLinkPairs | src/steps/resource-manager/event-grid/index.ts:91-97 | Each HAS edge has the iterated parent, which is of the parent type, as its source, and the entity added with it as its target. |
| EventGrid.ScopeOf | src/steps/resource-manager/event-grid/index.ts:114-125 | A scope exists exactly when the resource group, domain name and topic name are all truthy. It is then `{resourceGroupName, domainTopicName, domainName}`: the resource group is `resourceGroupName(id, true)`, the domain name is the one derived from the topic id, and the topic name is the entity's name. |
| EventGrid.ScopedClient | src/steps/resource-manager/event-grid/index.ts:115-120 | A topic with an incomplete scope yields no subscriptions. With a complete scope, the client is asked for ScopeOf's value: the topic's resource group, topic name and domain name. |
| EventGrid.HasScope | src/steps/resource-manager/event-grid/index.ts:119 | A domain topic is visited exactly when its scope is complete. |
| EventGrid.FetchEventGridDomainTopicSubscriptions | src/steps/resource-manager/event-grid/index.ts:103-148 | Only topics with a complete scope are passed to the client. Each subscription adds one entity, then a HAS edge. |
| EventGrid.SubscriptionsOnlyForCompleteScopes | src/steps/resource-manager/event-grid/index.ts:115-119 | Every subscription added comes from a topic whose scope is complete. It is the conversion of a child the client yields for that scope. |
| EventGrid.FetchEventGridTopics | src/steps/resource-manager/event-grid/index.ts:150-178 | Each resource group adds one topic entity, then its resource-group edge, per topic. |
| EventGrid.FetchEventGridTopicSubscriptions | src/steps/resource-manager/event-grid/index.ts:180-211 | Each topic adds one subscription entity, then a HAS edge from that topic, per subscription. |
| EventGrid.EventGridSteps | src/steps/resource-manager/event-grid/index.ts:213-271 | Five steps with distinct ids, in which every dependency on a listed step points to an earlier one. |
| EventGrid.EventGridStepsDependencies | src/steps/resource-manager/event-grid/index.ts:213-271 | There are five steps with distinct ids. Every step depends on the account step and the resource-group step. Each child step depends on its parent step. Both subscription steps declare the topic-subscription type. |
| EventGrid.EventGridStepsAcyclic | src/steps/resource-manager/event-grid/index.ts:213-271 | Dependencies point backwards in the list, there is no cycle, and no step depends on itself. |
| Advisor.SourceKey | src/steps/resource-manager/advisor/index.ts:36-38 | `resourceMetadata?.source` is present exactly when the metadata and its source are. |
| Advisor.ResourceKey | src/steps/resource-manager/advisor/index.ts:52-54 | `resourceMetadata?.resourceId` is present exactly when the metadata and its resource id are. |
| Advisor.LinkFrom | src/steps/resource-manager/advisor/index.ts:39-50 | There is one edge exactly when an entity has the key, and otherwise none, without an error. The edge runs from that key to the recommendation with the given class and type. |
| Advisor.Record | src/steps/resource-manager/advisor/index.ts:31-66 | One recommendation adds exactly one entity, keeps every earlier relationship, and adds at most two edges. |
| Advisor.RecordLinksWhenFound | src/steps/resource-manager/advisor/index.ts:36-66 | An IDENTIFIED edge is added if and only if the source key names an entity. A HAS edge is added if and only if the resource id names an entity. |
| Advisor.RecordAll | src/steps/resource-manager/advisor/index.ts:31-67 | One entity per recommendation. Earlier relationships are kept. |
| Advisor.RecordAllEntities | src/steps/resource-manager/advisor/index.ts:31-34 | The entities are the earlier ones followed by the converted recommendations, in order. |
| Advisor.RecordAllEdgeCount | src/steps/resource-manager/advisor/index.ts:36-66 | At most two edges per recommendation. |
| Advisor.RecordAnchored | src/steps/resource-manager/advisor/index.ts:42-61 | The edges of one recommendation run from an entity of the job state to that recommendation's entity. |
| Advisor.RecordAllAnchored | src/steps/resource-manager/advisor/index.ts:31-67 | Every new edge runs from an entity of the job state to a recommendation entity, with one of the two declared class and type pairs. |
| Advisor.FetchRecommendations | src/steps/resource-manager/advisor/index.ts:22-68 | The loop leaves the job state exactly as the fold over the recommendations specifies. |
| Advisor.AdvisorStep | src/steps/resource-manager/advisor/index.ts:70-88 | The step has the recommendations id, declares the recommendation entity and exactly the IDENTIFIED and HAS finding relationships, in that order. It depends on the account step, the assessments step and every execute-first step. It depends on itself only when an execute-first step has its id. |
| Advisor.AdvisorEdgesDeclared | src/steps/resource-manager/advisor/index.ts:76-80 | Every edge the handler adds has a relationship type that the step declares. |

## Left out

- API clients and pagination (`EventGridClient`, `AdvisorClient`). These are network I/O. Each client is a given function from a parent, or a scope, to its sequence of results.
- `createIntegrationEntity`, `assignTags`, `convertProperties`, `setRawData` and the SDK's copying of every source property onto the entity. The model keeps only the fields the builders assign. Raw data is kept only where a builder attaches an extra record.
- `generateEntityKey`, `generateRelationshipType`, `resourceGroupName`, `getEventGridDomainNameFromId`, `portalResourceUrl`, `getTime`. Their code is not part of this model; they are arbitrary deterministic functions in `Helpers`.
- `createResourceGroupResourceRelationship`. It is a given function of the child entity. Its lookup of the resource group in the job state is not modelled.
- The `_type` and `_class` strings of the network entities. Their constants file is not part of this model, so they appear as an enumeration of entity kinds.
- `getData(ACCOUNT_ENTITY_TYPE)` and `createAzureWebLinker` in each handler. They only build the web linker passed to the converters. A missing account entity, which makes those handlers fail, is not modelled.
- Duplicate-key rejection by the job state's `addEntity` and `addRelationship`. The model's job state appends unconditionally.
- `mutateAccessToken`, `mutateRecordingEntry` and `setupAzureRecording`. They depend on JSON parsing, gzip and regular expressions over recorded HTTP traffic.
- `$`-patterns in the replacement string of `String.replace`. The replacement strings used, `directory-id` and `subscription-id`, contain none.
- Async scheduling and failure propagation of the step runner. Handlers are sequential loops, and the step list's ordering is stated as static dependencies.
- `getResourceManagerSteps().executeFirstSteps`: `src/getStepStartStates.ts` is not part of this model. `Advisor.AdvisorStep` takes that list as a parameter.
- `Advisor.AdvisorStep`: the classes of the two advisor relationships are taken from their names (IDENTIFIED and HAS), because `advisor/constants.ts` is not part of this model.
