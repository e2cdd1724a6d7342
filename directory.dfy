/**
 * Builders for the directory's account, group, user and service-principal entities, and
 * for the account's HAS relationships to groups and users.
 */
module Directory {
  import opened Wrappers
  import opened Sdk
  import Words

  // active-directory/constants.ts is not part of this model; each constant below stands
  // for the constant of the same name, as an opaque identifier.
  const ACCOUNT_ENTITY_TYPE := "ACCOUNT_ENTITY_TYPE"
  const GROUP_ENTITY_TYPE := "GROUP_ENTITY_TYPE"
  const USER_ENTITY_TYPE := "USER_ENTITY_TYPE"
  const SERVICE_PRINCIPAL_ENTITY_TYPE := "SERVICE_PRINCIPAL_ENTITY_TYPE"
  const ACCOUNT_GROUP_RELATIONSHIP_TYPE := "ACCOUNT_GROUP_RELATIONSHIP_TYPE"
  const STEP_AD_ACCOUNT := "STEP_AD_ACCOUNT"

  datatype IntegrationInstance = IntegrationInstance(id: string, name: string)

  datatype VerifiedDomain = VerifiedDomain(name: Option<string>, isDefault: Option<bool>)

  datatype Organization = Organization(
    displayName: Option<string>, verifiedDomains: Option<seq<VerifiedDomain>>)

  datatype SecurityDefaultsPolicy = SecurityDefaultsPolicy(isEnabled: Option<bool>)

  datatype RegistrationDetails = RegistrationDetails(isMfaRegistered: Option<bool>)

  /** An extra raw-data record attached with `setRawData`. */
  datatype RawData =
    | SecurityDefaultsRaw(policy: SecurityDefaultsPolicy)
    | RegistrationDetailsRaw(details: RegistrationDetails)


  datatype AccountEntity = AccountEntity(
    key: string, entityType: string, name: Option<string>, displayName: string,
    organizationName: Option<string>, defaultDomain: Option<string>,
    verifiedDomains: Option<seq<Option<string>>>, securityDefaultsEnabled: Option<bool>,
    rawData: seq<RawData>)

  datatype Group = Group(
    id: Option<string>, displayName: Option<string>, mail: Nullable<string>,
    deletedDateTime: Option<string>, createdDateTime: Option<string>,
    renewedDateTime: Option<string>)

  datatype GroupEntity = GroupEntity(
    key: string, entityType: string, name: Option<string>, email: Option<string>,
    deletedOn: Option<int>, createdOn: Option<int>, renewedOn: Option<int>)

  datatype User = User(
    id: Option<string>, displayName: Nullable<string>, accountEnabled: Option<bool>,
    mail: Nullable<string>, givenName: Nullable<string>, surname: Nullable<string>,
    userPrincipalName: Option<string>)

  datatype UserEntity = UserEntity(
    key: string, entityType: string, name: Nullable<string>, active: Option<bool>,
    email: Option<string>, firstName: Option<string>, lastName: Option<string>,
    username: Option<string>, isMfaRegistered: Option<bool>, accountEnabled: Option<bool>,
    rawData: seq<RawData>)

  datatype ServicePrincipal = ServicePrincipal(
    id: Option<string>, displayName: Option<string>, appDisplayName: Option<string>,
    appId: Option<string>, servicePrincipalType: Option<string>,
    servicePrincipalNames: Option<seq<string>>)

  datatype ServicePrincipalEntity = ServicePrincipalEntity(
    key: string, entityType: string, functions: seq<string>, userType: string,
    category: seq<string>, name: Option<string>, displayName: Option<string>,
    appDisplayName: Option<string>, appId: Option<string>,
    servicePrincipalType: Option<string>, servicePrincipalNames: Option<seq<string>>)

  // ---------------------------------------------------------------------------------------
  // Accounts

  function CreateAccountEntity(h: Helpers, instance: IntegrationInstance): (e: AccountEntity)
    ensures e.key == h.generateEntityKey(Some(instance.id)) && e.entityType == ACCOUNT_ENTITY_TYPE
    ensures e.name == Some(instance.name) && e.displayName == instance.name
    ensures e.organizationName.None? && e.defaultDomain.None? && e.verifiedDomains.None?
    ensures e.rawData == []
  {
    AccountEntity(
      h.generateEntityKey(Some(instance.id)), ACCOUNT_ENTITY_TYPE, Some(instance.name),
      instance.name, None, None, None, None, [])
  }

  predicate IsDefault(d: VerifiedDomain) {
    d.isDefault == Some(true)
  }

  /** The name of the last domain flagged as default; absent when none is flagged. */
  function LastDefaultDomain(ds: seq<VerifiedDomain>): (r: Option<string>)
    ensures r.Some? ==> exists i :: 0 <= i < |ds| && IsDefault(ds[i]) && ds[i].name == r
    decreases |ds|
  {
    if ds == [] then None
    else if IsDefault(ds[|ds| - 1]) then ds[|ds| - 1].name
    else LastDefaultDomain(ds[..|ds| - 1])
  }

  /** No domain after index `i` is flagged as default. */
  predicate NoDefaultAfter(ds: seq<VerifiedDomain>, i: nat) {
    forall j :: i < j < |ds| ==> !IsDefault(ds[j])
  }

  /** The default domain is the name of the last flagged domain, and absent when none is flagged. */
  lemma {:induction false} LastDefaultDomainIsLastFlagged(ds: seq<VerifiedDomain>)
    ensures (forall i :: 0 <= i < |ds| ==> !IsDefault(ds[i])) ==> LastDefaultDomain(ds) == None
    ensures forall i :: 0 <= i < |ds| && IsDefault(ds[i]) && NoDefaultAfter(ds, i) ==>
      LastDefaultDomain(ds) == ds[i].name
    decreases |ds|
  {
    if ds != [] {
      var init := ds[..|ds| - 1];
      LastDefaultDomainIsLastFlagged(init);
      assert forall i :: 0 <= i < |init| ==> init[i] == ds[i];
    }
  }

  /** The names in the organization's list, in order; an absent list gives no names. */
  function DomainNames(ds: Option<seq<VerifiedDomain>>): (r: seq<Option<string>>)
    ensures ds.None? ==> r == []
    ensures ds.Some? ==> |r| == |ds.value|
    ensures ds.Some? ==> forall i :: 0 <= i < |r| ==> r[i] == ds.value[i].name
  {
    match ds
    case None => []
    case Some(s) => seq(|s|, i requires 0 <= i < |s| => s[i].name)
  }

  /**
   * The account builder that also reads the organization: the map over verified domains
   * collects their names and remembers the name of the last one flagged as default.
   */
  method CreateAccountEntityWithOrganization(
    h: Helpers, instance: IntegrationInstance, organization: Organization,
    securityDefaults: Option<SecurityDefaultsPolicy>) returns (e: AccountEntity)
    ensures e.key == CreateAccountEntity(h, instance).key && e.entityType == ACCOUNT_ENTITY_TYPE
    ensures e.name == organization.displayName && e.displayName == instance.name
    ensures e.organizationName == organization.displayName
    ensures e.verifiedDomains == Some(DomainNames(organization.verifiedDomains))
    ensures organization.verifiedDomains.Some? ==>
      e.defaultDomain == LastDefaultDomain(organization.verifiedDomains.value)
    ensures organization.verifiedDomains.None? ==> e.defaultDomain.None?
    ensures e.securityDefaultsEnabled ==
      (if securityDefaults.Some? then securityDefaults.value.isEnabled else None)
    ensures |e.rawData| <= 1
    ensures e.rawData != [] <==> securityDefaults.Some?
    ensures securityDefaults.Some? ==> e.rawData == [SecurityDefaultsRaw(securityDefaults.value)]
  {
    var domains := if organization.verifiedDomains.Some? then organization.verifiedDomains.value else [];
    var defaultDomain: Option<string> := None;
    var verifiedDomains: seq<Option<string>> := [];
    var i := 0;
    while i < |domains|
      invariant 0 <= i <= |domains|
      invariant |verifiedDomains| == i
      invariant forall k :: 0 <= k < i ==> verifiedDomains[k] == domains[k].name
      invariant defaultDomain == LastDefaultDomain(domains[..i])
    {
      var d := domains[i];
      if IsDefault(d) {
        defaultDomain := d.name;
      }
      verifiedDomains := verifiedDomains + [d.name];
      assert domains[..i + 1][..i] == domains[..i];
      i := i + 1;
    }
    assert domains[..i] == domains;
    assert verifiedDomains == DomainNames(organization.verifiedDomains);
    var enabled := if securityDefaults.Some? then securityDefaults.value.isEnabled else None;
    e := AccountEntity(
      h.generateEntityKey(Some(instance.id)), ACCOUNT_ENTITY_TYPE, organization.displayName,
      instance.name, organization.displayName, defaultDomain, Some(verifiedDomains), enabled, []);
    if securityDefaults.Some? {
      e := e.(rawData := e.rawData + [SecurityDefaultsRaw(securityDefaults.value)]);
    }
  }

  // ---------------------------------------------------------------------------------------
  // Groups, users and service principals

  /** `mail ?? undefined`: a present address (even an empty one) is kept, `null` becomes absent. */
  function Email(mail: Nullable<string>): (e: Option<string>)
    ensures e.Some? <==> mail.Value?
    ensures e.Some? ==> e.value == mail.value
  {
    match mail
    case Value(m) => Some(m)
    case _ => None
  }

  function CreateGroupEntity(h: Helpers, data: Group): (e: GroupEntity)
    ensures e.key == h.generateEntityKey(data.id) && e.entityType == GROUP_ENTITY_TYPE
    ensures e.name == data.displayName
    ensures e.email.Some? <==> data.mail.Value?
    ensures data.mail.Value? ==> e.email == Some(data.mail.value)
    ensures e.createdOn == h.getTime(data.createdDateTime)
  {
    GroupEntity(
      h.generateEntityKey(data.id), GROUP_ENTITY_TYPE, data.displayName, Email(data.mail),
      h.getTime(data.deletedDateTime), h.getTime(data.createdDateTime),
      h.getTime(data.renewedDateTime))
  }

  /** A truthy nullable string: present, not null and non-empty. */
  predicate TruthyText(s: Nullable<string>) {
    s.Value? && s.value != ""
  }

  /** `given || displayName?.split(' ')[0]`. */
  function FirstName(given: Nullable<string>, displayName: Nullable<string>): (r: Option<string>)
    ensures TruthyText(given) ==> r == Some(given.value)
    ensures !TruthyText(given) && displayName.Value? ==>
      r.Some? && r.value <= displayName.value && ' ' !in r.value
      && (|r.value| == |displayName.value| || displayName.value[|r.value|] == ' ')
    ensures !TruthyText(given) && !displayName.Value? ==> r.None?
  {
    if TruthyText(given) then Some(given.value)
    else if displayName.Value? then Some(Words.FirstWord(displayName.value))
    else None
  }

  /** `surname || displayName?.split(' ').slice(-1)[0]`. */
  function LastName(surname: Nullable<string>, displayName: Nullable<string>): (r: Option<string>)
    ensures TruthyText(surname) ==> r == Some(surname.value)
    ensures !TruthyText(surname) && displayName.Value? ==>
      var d := displayName.value;
      r.Some? && ' ' !in r.value && |r.value| <= |d| && d[|d| - |r.value|..] == r.value
      && (|r.value| == |d| || d[|d| - |r.value| - 1] == ' ')
    ensures !TruthyText(surname) && !displayName.Value? ==> r.None?
  {
    if TruthyText(surname) then Some(surname.value)
    else if displayName.Value? then Some(Words.LastWord(displayName.value))
    else None
  }

  function CreateUserEntity(h: Helpers, data: User, registrationDetails: Option<RegistrationDetails>): (e: UserEntity)
    ensures e.key == h.generateEntityKey(data.id) && e.entityType == USER_ENTITY_TYPE
    ensures e.email.Some? <==> data.mail.Value?
    ensures data.mail.Value? ==> e.email == Some(data.mail.value)
    ensures e.firstName == FirstName(data.givenName, data.displayName)
    ensures e.lastName == LastName(data.surname, data.displayName)
    ensures e.active == e.accountEnabled == data.accountEnabled
    ensures e.isMfaRegistered ==
      (if registrationDetails.Some? then registrationDetails.value.isMfaRegistered else None)
    ensures e.rawData != [] <==> registrationDetails.Some?
    ensures registrationDetails.Some? ==> e.rawData == [RegistrationDetailsRaw(registrationDetails.value)]
  {
    var entity := UserEntity(
      h.generateEntityKey(data.id), USER_ENTITY_TYPE, data.displayName, data.accountEnabled,
      Email(data.mail), FirstName(data.givenName, data.displayName),
      LastName(data.surname, data.displayName), data.userPrincipalName,
      if registrationDetails.Some? then registrationDetails.value.isMfaRegistered else None,
      data.accountEnabled, []);
    if registrationDetails.Some?
    then entity.(rawData := entity.rawData + [RegistrationDetailsRaw(registrationDetails.value)])
    else entity
  }

  function CreateServicePrincipalEntity(h: Helpers, data: ServicePrincipal): (e: ServicePrincipalEntity)
    ensures e.key == h.generateEntityKey(data.id) && e.entityType == SERVICE_PRINCIPAL_ENTITY_TYPE
    ensures e.functions == ["service-account"] && e.userType == "service"
    ensures e.category == ["infrastructure"]
    ensures e.name == e.displayName == data.displayName
    ensures e.appId == data.appId && e.servicePrincipalNames == data.servicePrincipalNames
  {
    ServicePrincipalEntity(
      h.generateEntityKey(data.id), SERVICE_PRINCIPAL_ENTITY_TYPE, ["service-account"],
      "service", ["infrastructure"], data.displayName, data.displayName, data.appDisplayName,
      data.appId, data.servicePrincipalType, data.servicePrincipalNames)
  }

  // ---------------------------------------------------------------------------------------
  // Relationships

  function CreateAccountGroupRelationship(h: Helpers, account: Entity, group: Entity): (r: Relationship)
    ensures r.relClass == HAS && r.fromKey == account.key
    ensures r.toKey == h.generateEntityKey(group.id)
    ensures r.fromType == ACCOUNT_ENTITY_TYPE && r.toType == GROUP_ENTITY_TYPE
    ensures r.relType == ACCOUNT_GROUP_RELATIONSHIP_TYPE
    ensures r.key == account.key + "|has|" + h.generateEntityKey(group.id)
  {
    DirectRelationship(
      h, HAS, account.key, ACCOUNT_ENTITY_TYPE, h.generateEntityKey(group.id), GROUP_ENTITY_TYPE,
      Some(ACCOUNT_GROUP_RELATIONSHIP_TYPE))
  }

  function CreateAccountUserRelationship(h: Helpers, account: Entity, user: Entity): (r: Relationship)
    ensures r.relClass == HAS && r.fromKey == account.key
    ensures r.toKey == h.generateEntityKey(user.id)
    ensures r.fromType == ACCOUNT_ENTITY_TYPE && r.toType == USER_ENTITY_TYPE
    ensures r.relType == h.generateRelationshipType(HAS, ACCOUNT_ENTITY_TYPE, USER_ENTITY_TYPE)
    ensures r.key == account.key + "|has|" + h.generateEntityKey(user.id)
  {
    DirectRelationship(
      h, HAS, account.key, ACCOUNT_ENTITY_TYPE, h.generateEntityKey(user.id), USER_ENTITY_TYPE, None)
  }

  /** The account-to-group edge points at the key the group builder gives the same group. */
  lemma AccountGroupEdgeTargetsGroup(h: Helpers, account: Entity, group: Entity, raw: Group)
    requires group.id == raw.id
    ensures CreateAccountGroupRelationship(h, account, group).toKey == CreateGroupEntity(h, raw).key
  {
  }

  /** Distinct groups of one account give distinct edge keys when the account key holds no '|'. */
  lemma AccountGroupEdgeKeysDetermineTarget(h: Helpers, account: Entity, g1: Entity, g2: Entity)
    requires '|' !in account.key
    requires CreateAccountGroupRelationship(h, account, g1).key == CreateAccountGroupRelationship(h, account, g2).key
    ensures h.generateEntityKey(g1.id) == h.generateEntityKey(g2.id)
  {
    RelationshipKeyInjective(
      account.key, HAS, h.generateEntityKey(g1.id), account.key, HAS, h.generateEntityKey(g2.id));
  }
}
