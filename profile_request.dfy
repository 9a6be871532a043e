/** `Orcid::ProfileRequest`: the gate that validates a request, the ORCID message it
    submits, and the transaction that records the profile identifier it gets back. */
module OrcidProfileRequest {
  import opened Wrappers
  import opened RubyText

  type UserId = nat
  type ProfileId = string

  /** A string column as Ruby holds it: `nil` or a string. */
  datatype Value = Nil | Str(s: string)

  /** `"#{value}"`: string interpolation writes `nil` as the empty string. */
  function Interpolated(v: Value): string {
    if v.Str? then v.s else ""
  }

  /** `record.orcid_profile_id?`: the column query of a string column is true when the
      value is non-nil and not blank. */
  predicate Assigned(v: Value) {
    v.Str? && !Blank(v.s)
  }

  // ---------------------------------------------------------------------------
  // Attribute hashes and `with_indifferent_access`
  // ---------------------------------------------------------------------------

  /** A hash key: a string or a symbol. */
  datatype AttrKey = StringKey(name: string) | SymbolKey(name: string)

  /** A hash as its entries in insertion order. */
  type AttributeList = seq<(AttrKey, Value)>

  datatype KeyError = KeyNotFound(key: string)

  /** `input.with_indifferent_access[name]`: string and symbol keys of the same name are
      one key; when both occur, the entry inserted last is the one kept. */
  function Lookup(input: AttributeList, name: string): (r: Option<Value>)
    ensures r.None? <==> forall i :: 0 <= i < |input| ==> input[i].0.name != name
    ensures r.Some? ==> exists i :: 0 <= i < |input| && input[i].0.name == name && input[i].1 == r.value
                                    && forall j :: i < j < |input| ==> input[j].0.name != name
  {
    if input == [] then None
    else if input[|input| - 1].0.name == name then Some(input[|input| - 1].1)
    else
      var r := Lookup(input[..|input| - 1], name);
      assert forall i :: 0 <= i < |input| - 1 ==> input[..|input| - 1][i] == input[i];
      r
  }

  /** The entry found is the last one with that name. */
  lemma LookupLast(input: AttributeList, name: string, i: nat)
    requires i < |input| && input[i].0.name == name
    requires forall j :: i < j < |input| ==> input[j].0.name != name
    ensures Lookup(input, name) == Some(input[i].1)
  {
    var r := Lookup(input, name);
    var k :| 0 <= k < |input| && input[k].0.name == name && input[k].1 == r.value
             && forall j :: k < j < |input| ==> input[j].0.name != name;
    assert k == i;
  }

  /** `attrs.fetch(name)`: the value, or a `KeyError` naming the missing key. */
  function Fetch(input: AttributeList, name: string): (r: Result<Value, KeyError>)
    ensures r.Failure? <==> forall i :: 0 <= i < |input| ==> input[i].0.name != name
    ensures r.Failure? ==> r.error == KeyNotFound(name)
    ensures r.Success? ==> exists i :: 0 <= i < |input| && input[i].0.name == name && input[i].1 == r.value
                                      && forall j :: i < j < |input| ==> input[j].0.name != name
  {
    match Lookup(input, name)
    case None => Failure(KeyNotFound(name))
    case Some(v) => Success(v)
  }

  // ---------------------------------------------------------------------------
  // xml_payload
  // ---------------------------------------------------------------------------

  /** The indentation the `<<-` heredoc keeps on every line of its body. */
  const Indent: string := "      "

  const XmlDeclaration: string := "<?xml version=\"1.0\" encoding=\"UTF-8\"?>"
  const MessageClose: string := "</orcid-message>"

  function GivenNamesElement(g: string): string { "<given-names>" + g + "</given-names>" }
  function FamilyNameElement(f: string): string { "<family-name>" + f + "</family-name>" }
  function EmailElement(e: string): string { "<email primary=\"true\">" + e + "</email>" }

  const MessageOpen: string := "<orcid-message"
  const SchemaLocation: string :=
    "xmlns:xsi=\"http://www.orcid.org/ns/orcid https://raw.github.com/ORCID/ORCID-Source/master/orcid-model/src/main/resources/orcid-message-1.1.xsd\""
  const Namespace: string := "xmlns=\"http://www.orcid.org/ns/orcid\">"
  const MessageVersion: string := "<message-version>1.1</message-version>"

  /** The lines of the ORCID 1.1 `orcid-message` template, without their indentation,
      the three values spliced in as they are. */
  function TemplateLines(g: string, f: string, e: string): (lines: seq<string>)
    ensures |lines| == 17
    ensures lines[0] == XmlDeclaration && lines[16] == MessageClose
    ensures lines[8] == GivenNamesElement(g) && lines[9] == FamilyNameElement(f) && lines[12] == EmailElement(e)
  {
    [ XmlDeclaration,
      MessageOpen,
      SchemaLocation,
      Namespace,
      MessageVersion,
      "<orcid-profile>",
      "<orcid-bio>",
      "<personal-details>",
      GivenNamesElement(g),
      FamilyNameElement(f),
      "</personal-details>",
      "<contact-details>",
      EmailElement(e),
      "</contact-details>",
      "</orcid-bio>",
      "</orcid-profile>",
      MessageClose ]
  }

  /** The string a `<<-` heredoc with these body lines evaluates to. */
  function Heredoc(lines: seq<string>): string {
    if lines == [] then "" else Indent + lines[0] + "\n" + Heredoc(lines[1..])
  }

  /** The document the payload is meant to be: the template lines, each after the first
      still carrying its indentation. */
  function Document(g: string, f: string, e: string): string {
    Join(TemplateLines(g, f, e), "\n" + Indent)
  }

  /** `xml_payload(input)`. */
  function XmlPayload(input: AttributeList): (r: Result<string, KeyError>)
    ensures Lookup(input, "given_names").None? ==> r == Failure(KeyNotFound("given_names"))
    ensures Lookup(input, "given_names").Some? && Lookup(input, "family_name").None?
            ==> r == Failure(KeyNotFound("family_name"))
    ensures (Lookup(input, "given_names").Some? && Lookup(input, "family_name").Some?
             && Lookup(input, "primary_email").None?) ==> r == Failure(KeyNotFound("primary_email"))
    ensures r.Success? <==> Lookup(input, "given_names").Some? && Lookup(input, "family_name").Some?
                            && Lookup(input, "primary_email").Some?
    ensures r.Success? ==>
      var g, f, e := Interpolated(Lookup(input, "given_names").value), Interpolated(Lookup(input, "family_name").value),
                     Interpolated(Lookup(input, "primary_email").value);
      && r.value == Document(g, f, e)
      && StartsWith(r.value, XmlDeclaration) && EndsWith(r.value, MessageClose)
      && Contains(r.value, GivenNamesElement(g))
      && Contains(r.value, FamilyNameElement(f))
      && Contains(r.value, EmailElement(e))
  {
    var g :- Fetch(input, "given_names");
    var f :- Fetch(input, "family_name");
    var e :- Fetch(input, "primary_email");
    var g', f', e' := Interpolated(g), Interpolated(f), Interpolated(e);
    PayloadStripsOuterSpace(g', f', e');
    DocumentShape(g', f', e');
    Success(Strip(Heredoc(TemplateLines(g', f', e'))))
  }

  /** Symbol keys are found as well as string keys, and a later entry for a name
      overrides an earlier one. */
  lemma IndifferentKeys(g: string, f: string, e: string, stale: string)
    ensures XmlPayload([(SymbolKey("given_names"), Str(stale)), (StringKey("given_names"), Str(g)),
                        (SymbolKey("family_name"), Str(f)), (SymbolKey("primary_email"), Str(e))])
            == Success(Document(g, f, e))
  {
    var input := [(SymbolKey("given_names"), Str(stale)), (StringKey("given_names"), Str(g)),
                  (SymbolKey("family_name"), Str(f)), (SymbolKey("primary_email"), Str(e))];
    LookupLast(input, "given_names", 1);
    LookupLast(input, "family_name", 2);
    LookupLast(input, "primary_email", 3);
  }

  /** Two hashes with the same names and values, in the same order, whatever kind of
      key each entry uses, look every name up alike. */
  lemma {:induction false} LookupIgnoresKeyKind(input: AttributeList, other: AttributeList, name: string)
    requires |other| == |input|
    requires forall i :: 0 <= i < |input| ==> other[i].0.name == input[i].0.name && other[i].1 == input[i].1
    ensures Lookup(other, name) == Lookup(input, name)
  {
    if input != [] {
      var n := |input| - 1;
      if input[n].0.name != name {
        LookupIgnoresKeyKind(input[..n], other[..n], name);
      }
    }
  }

  /** Switching any entry between a string and a symbol key of the same name leaves the
      payload unchanged. */
  lemma PayloadIgnoresKeyKind(input: AttributeList, other: AttributeList)
    requires |other| == |input|
    requires forall i :: 0 <= i < |input| ==> other[i].0.name == input[i].0.name && other[i].1 == input[i].1
    ensures XmlPayload(other) == XmlPayload(input)
  {
    LookupIgnoresKeyKind(input, other, "given_names");
    LookupIgnoresKeyKind(input, other, "family_name");
    LookupIgnoresKeyKind(input, other, "primary_email");
  }

  /** A heredoc is its lines joined by a newline and the indentation, with one more
      indentation in front and a newline at the end. */
  lemma {:induction false} HeredocJoin(lines: seq<string>)
    requires lines != []
    ensures Heredoc(lines) == Indent + Join(lines, "\n" + Indent) + "\n"
  {
    if |lines| == 1 {
      assert lines[1..] == [];
    } else {
      HeredocJoin(lines[1..]);
      var rest := Join(lines[1..], "\n" + Indent);
      calc {
        Heredoc(lines);
        Indent + lines[0] + "\n" + Heredoc(lines[1..]);
        Indent + lines[0] + "\n" + (Indent + rest + "\n");
        Indent + (lines[0] + ("\n" + Indent) + rest) + "\n";
      }
    }
  }

  /** `strip` removes only the indentation of the first line and the final newline. */
  lemma PayloadStripsOuterSpace(g: string, f: string, e: string)
    ensures Strip(Heredoc(TemplateLines(g, f, e))) == Document(g, f, e)
  {
    var lines := TemplateLines(g, f, e);
    var doc := Document(g, f, e);
    HeredocJoin(lines);
    JoinStartsWith(lines, "\n" + Indent);
    JoinEndsWith(lines, "\n" + Indent);
    assert doc[0] == XmlDeclaration[0] == '<';
    assert doc[|doc| - 1] == MessageClose[|MessageClose| - 1] == '>';
    StripPadded(Indent, doc, "\n");
  }

  /** The document opens with the XML declaration, closes the `orcid-message` element,
      and holds the three values verbatim in their elements. */
  lemma DocumentShape(g: string, f: string, e: string)
    ensures var doc := Document(g, f, e);
      && StartsWith(doc, XmlDeclaration) && EndsWith(doc, MessageClose)
      && Contains(doc, GivenNamesElement(g))
      && Contains(doc, FamilyNameElement(f))
      && Contains(doc, EmailElement(e))
  {
    var lines := TemplateLines(g, f, e);
    JoinStartsWith(lines, "\n" + Indent);
    JoinEndsWith(lines, "\n" + Indent);
    JoinContainsLine(lines, "\n" + Indent, 8);
    JoinContainsLine(lines, "\n" + Indent, 9);
    JoinContainsLine(lines, "\n" + Indent, 12);
  }

  // ---------------------------------------------------------------------------
  // The state the request works on
  // ---------------------------------------------------------------------------

  /** The columns of a profile request `run` and its collaborators see. */
  datatype RequestRecord = RequestRecord(
    user: UserId, givenNames: Value, familyName: Value, primaryEmail: Value, orcidProfileId: Value)

  /** `attributes`: the string-keyed hash of the record's columns. */
  function AttributesOf(r: RequestRecord): (attrs: AttributeList)
    ensures Lookup(attrs, "given_names") == Some(r.givenNames)
    ensures Lookup(attrs, "family_name") == Some(r.familyName)
    ensures Lookup(attrs, "primary_email") == Some(r.primaryEmail)
    ensures Lookup(attrs, "orcid_profile_id") == Some(r.orcidProfileId)
  {
    var attrs := [ (StringKey("given_names"), r.givenNames),
                   (StringKey("family_name"), r.familyName),
                   (StringKey("primary_email"), r.primaryEmail),
                   (StringKey("orcid_profile_id"), r.orcidProfileId) ];
    LookupLast(attrs, "given_names", 0);
    LookupLast(attrs, "family_name", 1);
    LookupLast(attrs, "primary_email", 2);
    LookupLast(attrs, "orcid_profile_id", 3);
    attrs
  }

  /** The payload of a request's own attributes is always built: the three keys are
      columns, so `fetch` finds them even when their values are `nil`. */
  lemma OwnAttributesBuild(r: RequestRecord)
    ensures XmlPayload(AttributesOf(r)) ==
            Success(Document(Interpolated(r.givenNames), Interpolated(r.familyName), Interpolated(r.primaryEmail)))
  {
  }

  /** The `:base` errors the two checks add; their wording is not modelled. */
  datatype BaseError =
    | ProfileIdAlreadyAssigned(profileId: string)
    | UserAlreadyHasProfile(user: UserId, profile: ProfileId)

  /** What `validate_profile_id_is_unassigned` adds to the errors. */
  function UnassignedErrors(orcidProfileId: Value): (errors: seq<BaseError>)
    ensures errors == [] <==> !Assigned(orcidProfileId)
    ensures |errors| <= 1
  {
    if Assigned(orcidProfileId) then [ProfileIdAlreadyAssigned(orcidProfileId.s)] else []
  }

  /** What `validate_user_does_not_have_profile` adds to the errors, `profiles` being
      what `Orcid.profile_for` answers. */
  function NoProfileErrors(user: UserId, profiles: map<UserId, ProfileId>): (errors: seq<BaseError>)
    ensures errors == [] <==> user !in profiles
    ensures |errors| <= 1
  {
    if user in profiles then [UserAlreadyHasProfile(user, profiles[user])] else []
  }

  /** What `validate_before_run` adds to the errors: the second check runs only when
      the first passes. */
  function BeforeRunErrors(r: RequestRecord, profiles: map<UserId, ProfileId>): (errors: seq<BaseError>)
    ensures errors == [] <==> !Assigned(r.orcidProfileId) && r.user !in profiles
    ensures |errors| <= 1
  {
    if Assigned(r.orcidProfileId) then UnassignedErrors(r.orcidProfileId)
    else NoProfileErrors(r.user, profiles)
  }

  /** An assigned identifier is reported alone, whatever the user's profiles are. */
  lemma AssignedIdShortCircuits(r: RequestRecord, profiles: map<UserId, ProfileId>)
    requires Assigned(r.orcidProfileId)
    ensures BeforeRunErrors(r, profiles) == [ProfileIdAlreadyAssigned(r.orcidProfileId.s)]
  {
  }

  /** Once the transaction has recorded `id`, the request no longer passes validation:
      a non-blank `id` is an assigned identifier, and any `id` links the user to a
      profile. */
  lemma RecordedRequestFailsValidation(r: RequestRecord, profiles: map<UserId, ProfileId>, id: ProfileId)
    ensures BeforeRunErrors(r.(orcidProfileId := Str(id)), profiles[r.user := id]) != []
  {
  }

  // ---------------------------------------------------------------------------
  // Orcid.profile_for and Orcid.connect_user_and_orcid_profile
  // ---------------------------------------------------------------------------

  /** The user-to-profile association the `Orcid` module reads and writes. */
  class ProfileDirectory {
    var profiles: map<UserId, ProfileId>

    constructor(profiles: map<UserId, ProfileId>)
      ensures this.profiles == profiles
    {
      this.profiles := profiles;
    }

    /** `Orcid.profile_for(user)`. */
    function ProfileFor(user: UserId): Option<ProfileId>
      reads this
    {
      if user in profiles then Some(profiles[user]) else None
    }

    /** `Orcid.connect_user_and_orcid_profile(user, id)`. */
    method Connect(user: UserId, id: ProfileId)
      modifies this
      ensures profiles == old(profiles)[user := id]
      ensures ProfileFor(user) == Some(id)
    {
      profiles := profiles[user := id];
    }
  }

  /** The step of the transaction that raises, if one does. */
  datatype PersistenceStep = UpdateColumn | ConnectUserAndProfile

  /** The options `run` takes: an injected validator and payload builder, each replaced
      by its default when absent, and the profile creation service. */
  datatype RunOptions<R> = RunOptions(
    validator: Option<RequestRecord -> bool>,
    payloadXmlBuilder: Option<AttributeList -> Result<string, KeyError>>,
    profileCreationService: string -> R)

  /** How `run` ends: `false` from the gate, an exception from the builder, or the
      service's value. */
  datatype RunOutcome<R> = Declined | Raised(error: KeyError) | Returned(value: R)

  // ---------------------------------------------------------------------------
  // Orcid::ProfileRequest
  // ---------------------------------------------------------------------------

  class ProfileRequest {
    var user: UserId
    var givenNames: Value
    var familyName: Value
    var primaryEmail: Value
    var orcidProfileId: Value
    /** `errors` entries on `:base`, oldest first. */
    var errors: seq<BaseError>

    /** A request as a user submits it: no identifier yet and no errors. */
    constructor(user: UserId, givenNames: Value, familyName: Value, primaryEmail: Value)
      ensures Record() == RequestRecord(user, givenNames, familyName, primaryEmail, Nil)
      ensures errors == []
    {
      this.user := user;
      this.givenNames := givenNames;
      this.familyName := familyName;
      this.primaryEmail := primaryEmail;
      this.orcidProfileId := Nil;
      this.errors := [];
    }

    function Record(): RequestRecord
      reads this
    {
      RequestRecord(user, givenNames, familyName, primaryEmail, orcidProfileId)
    }

    /** `validate_profile_id_is_unassigned(context)`. */
    method ValidateProfileIdIsUnassigned(context: ProfileRequest) returns (ok: bool)
      modifies context`errors
      ensures ok <==> !Assigned(context.orcidProfileId)
      ensures context.errors == old(context.errors) + UnassignedErrors(context.orcidProfileId)
    {
      if !Assigned(context.orcidProfileId) {
        return true;
      }
      context.errors := context.errors + [ProfileIdAlreadyAssigned(context.orcidProfileId.s)];
      return false;
    }

    /** `validate_user_does_not_have_profile(context)`. */
    method ValidateUserDoesNotHaveProfile(context: ProfileRequest, directory: ProfileDirectory) returns (ok: bool)
      modifies context`errors
      ensures ok <==> context.user !in directory.profiles
      ensures context.errors == old(context.errors) + NoProfileErrors(context.user, directory.profiles)
    {
      var profile := directory.ProfileFor(context.user);
      if profile.None? {
        return true;
      }
      context.errors := context.errors + [UserAlreadyHasProfile(context.user, profile.value)];
      return false;
    }

    /** `validate_before_run(context)`. */
    method ValidateBeforeRun(context: ProfileRequest, directory: ProfileDirectory) returns (ok: bool)
      modifies context`errors
      ensures ok <==> !Assigned(context.orcidProfileId) && context.user !in directory.profiles
      ensures context.errors == old(context.errors) + BeforeRunErrors(context.Record(), directory.profiles)
    {
      ok := ValidateProfileIdIsUnassigned(context);
      if ok {
        ok := ValidateUserDoesNotHaveProfile(context, directory);
      }
    }

    /** `run(options)`. The default validator is `validate_before_run` on this request;
        the default builder is `xml_payload`. */
    method Run<R>(options: RunOptions<R>, directory: ProfileDirectory) returns (outcome: RunOutcome<R>)
      modifies this`errors
      ensures var passed := if options.validator.Some? then options.validator.value(Record())
                            else BeforeRunErrors(Record(), directory.profiles) == [];
        && (!passed ==> outcome == Declined)
        && (passed ==>
              var built := (if options.payloadXmlBuilder.Some? then options.payloadXmlBuilder.value
                            else XmlPayload)(AttributesOf(Record()));
              outcome == if built.Failure? then Raised(built.error)
                         else Returned(options.profileCreationService(built.value)))
      ensures options.validator.Some? ==> errors == old(errors)
      ensures options.validator.None? ==> errors == old(errors) + BeforeRunErrors(Record(), directory.profiles)
    {
      var passed: bool;
      if options.validator.Some? {
        passed := options.validator.value(Record());
      } else {
        passed := ValidateBeforeRun(this, directory);
      }
      if !passed {
        return Declined;
      }
      var builder := if options.payloadXmlBuilder.Some? then options.payloadXmlBuilder.value else XmlPayload;
      var built := builder(AttributesOf(Record()));
      if built.Failure? {
        return Raised(built.error);
      }
      outcome := Returned(options.profileCreationService(built.value));
    }

    /** `handle_profile_creation_response(id)`: records `id` in the `orcid_profile_id`
        column and links the user to it, in one transaction. When the step `failure`
        names raises, the transaction restores both. */
    method HandleProfileCreationResponse(id: ProfileId, directory: ProfileDirectory, failure: Option<PersistenceStep>)
      returns (committed: bool)
      modifies this`orcidProfileId, directory
      ensures committed <==> failure.None?
      ensures committed ==> orcidProfileId == Str(id) && directory.profiles == old(directory.profiles)[user := id]
      ensures !committed ==> orcidProfileId == old(orcidProfileId) && directory.profiles == old(directory.profiles)
    {
      var savedId, savedProfiles := orcidProfileId, directory.profiles;
      orcidProfileId := Str(id);
      if failure == Some(UpdateColumn) {
        orcidProfileId := savedId;
        return false;
      }
      directory.Connect(user, id);
      if failure.Some? {
        assert failure.value == ConnectUserAndProfile;
        orcidProfileId, directory.profiles := savedId, savedProfiles;
        return false;
      }
      committed := true;
    }
  }
}
