# ORCID profile requests and remote-service diagnostics, in Dafny

This project models the core of the `orcid` Rails engine:

- `Orcid::ProfileRequest` (`app/models/orcid/profile_request.rb`):
  - the `run` pipeline, with its injectable validator, payload builder and profile creation service;
  - the `validate_before_run` gate and its two checks, each appending one `:base` error when it fails;
  - the `xml_payload` document, the ORCID 1.1 `orcid-message` template with three attribute values spliced in verbatim;
  - the `handle_profile_creation_response` transaction, which records the new ORCID identifier and links the user to it, all or nothing.
- `Orcid::ConfigurationError` and `Orcid::RemoteServiceError` (`lib/orcid/exceptions.rb`): the diagnostic messages they carry.

Files:

- `wrappers.dfy`: `Option` and `Result`.
- `ruby_text.dfy`: the Ruby string behaviour the core relies on. This covers `String#strip`, `blank?` and `Array#join`, with lemmas about what stripping and joining preserve.
- `lines.dfy`: generic facts about a sequence made of four marker lines, each followed by a body. It shows where each marker sits and what lies between markers.
- `exceptions.dfy`: the two exception messages. `RemoteServiceError#initialize` is an imperative method that appends to a `text` array, as the source does. It is proved equal to a line-sequence function. That function is then read back, section by section and field by field.
- `profile_request.dfy`: the payload as a function on attribute hashes. The request and the user-to-profile association (`Orcid.profile_for` / `Orcid.connect_user_and_orcid_profile`) are classes whose methods update their fields.

How Ruby features are modelled:

- Ruby `inspect` and `to_s` of arbitrary values are opaque function values (`Renderer`).
- The options hash of `RemoteServiceError.new` is a record of `Option` fields. A missing key and a falsy value are both `None`, as the source tests each with `if`.
- In `RunOptions`, the options of `run`, `None` means that the key is absent, so `fetch` falls back to the default.
- `defined?(Orcid.provider)` together with the interpolated `authentication_scope` is a parameter `providerScope: Option<string>`.

## Model

| member | source | states |
|---|---|---|
| OrcidExceptions.ConfigurationErrorMessage | lib/orcid/exceptions.rb:3-6 | The message starts with "Unable to find " and ends with " in configuration storage.". In between sits exactly the inspected key name. |
| OrcidExceptions.ConfigurationErrorNamesKey | lib/orcid/exceptions.rb:3-6 | Reading the key back out of the message gives the inspected key name: a round trip. |
| OrcidExceptions.AppendClientOptions | lib/orcid/exceptions.rb:24-34 | Appends the client entries to `text`. These are `id`, `site` and `options`, inspected, only when a client is given, then `scopes` only when a provider is also defined. Nothing else is changed. |
| OrcidExceptions.AppendToken | lib/orcid/exceptions.rb:36-43 | Appends the token header. When a token is given, it then appends inspected `access_token` and `refresh_token` entries. |
| OrcidExceptions.AppendRequest | lib/orcid/exceptions.rb:45-51 | Appends the request header, then a `path`, `headers` and `body` entry for each option that is present, in that order. |
| OrcidExceptions.AppendResponse | lib/orcid/exceptions.rb:53-58 | Appends the response header, then a `status` entry and a `body` entry, each only when present. |
| OrcidExceptions.RemoteServiceErrorMessage | lib/orcid/exceptions.rb:12-20 | The message built by appending the four sections in place is the `"\n"`-join of the report's lines. |
| OrcidExceptions.ReportLayout | lib/orcid/exceptions.rb:13-19 | Whatever the options, the four headers each occur exactly once in the report's lines, the `text` array before the join. A raw body may itself contain header text, so this is not a claim about the joined string. They appear in the order Client, Token, Request, Response, and each is followed by exactly the lines of its own section. |
| OrcidExceptions.ReportSections | lib/orcid/exceptions.rb:14-18 | Searching the report for a header and the next one gives back exactly that section's lines. |
| OrcidExceptions.ClientReport | lib/orcid/exceptions.rb:24-33 | In the client section, `id`, `site` and `options` are present iff a client is given, and each carries the inspected value. `scopes` is present iff a client is given and a provider is defined. Labels appear in that order. |
| OrcidExceptions.TokenReport | lib/orcid/exceptions.rb:36-42 | In the token section, `access_token` and `refresh_token` are present iff a token is given, each carrying the inspected value, in that order. |
| OrcidExceptions.RequestReport | lib/orcid/exceptions.rb:45-51 | In the request section, each of `path`, `headers` and `body` is present iff that option is. Path and headers are inspected; the body is raw. The labels are exactly the present ones, in the order path, headers, body. |
| OrcidExceptions.ResponseReport | lib/orcid/exceptions.rb:53-58 | In the response section, `status` (inspected) and `body` (raw) are each present iff given, status first. An absent field leaves no line. |
| OrcidExceptions.MessageText | lib/orcid/exceptions.rb:13-19 | The message is the four sections, each joined after its header, joined in order with `"\n"`. It starts with "-- Client --". |
| OrcidExceptions.EmptyOptionsMessage | lib/orcid/exceptions.rb:12-20 | With no options at all, the message is the four headers alone, separated by newlines. |
| RubyText.StripPadded | app/models/orcid/profile_request.rb:97 | `strip` of a text padded only with white space, whose first and last characters are visible, gives back the text. |
| OrcidProfileRequest.Lookup | app/models/orcid/profile_request.rb:77 | Indifferent access: a name is missing iff no string or symbol key has it. Otherwise the value returned is that of the last entry with that name. |
| OrcidProfileRequest.Fetch | app/models/orcid/profile_request.rb:87-91 | `fetch` of the indifferent hash fails with a `KeyError` naming the key iff no entry, string- or symbol-keyed, has that name. Otherwise it returns the value of the last entry with that name. |
| OrcidProfileRequest.Assigned | app/models/orcid/profile_request.rb:64 | `orcid_profile_id?`: true when the column is non-nil and not blank. This is a definition with no contract. |
| OrcidProfileRequest.IndifferentKeys | app/models/orcid/profile_request.rb:77 | An example hash: a symbol key is found like a string key, and a later string entry overrides an earlier symbol entry of the same name. |
| OrcidProfileRequest.LookupIgnoresKeyKind | app/models/orcid/profile_request.rb:77 | For every hash: changing which entries use string keys and which use symbol keys, with the same names and values in the same order, changes no lookup. |
| OrcidProfileRequest.PayloadIgnoresKeyKind | app/models/orcid/profile_request.rb:77-91 | For every hash: switching any entry between a string and a symbol key of the same name leaves the payload, or the key error, unchanged. |
| OrcidProfileRequest.XmlPayload | app/models/orcid/profile_request.rb:76-98 | Fails with `KeyNotFound` for the first missing key among given_names, family_name and primary_email, and succeeds iff all three are present. On success the result is the template document. It starts with the XML declaration, ends with `</orcid-message>`, and contains the three elements with the values unescaped. |
| OrcidProfileRequest.HeredocJoin | app/models/orcid/profile_request.rb:78-96 | The `<<-` heredoc is its lines joined by a newline and the 6-space indentation. One more indentation comes first and a newline comes last. |
| OrcidProfileRequest.PayloadStripsOuterSpace | app/models/orcid/profile_request.rb:78-97 | `strip` removes only the leading indentation and the final newline. Interior line indentation is kept. |
| OrcidProfileRequest.DocumentShape | app/models/orcid/profile_request.rb:79-95 | The document opens with the XML declaration, closes `orcid-message`, and holds the given names, family name and primary email verbatim in their elements. |
| OrcidProfileRequest.OwnAttributesBuild | app/models/orcid/profile_request.rb:76 | With the request's own `attributes`, the default payload never raises. `nil` columns are interpolated as empty strings. |
| OrcidProfileRequest.UnassignedErrors | app/models/orcid/profile_request.rb:63-69 | The first check adds no error iff the identifier is not assigned (nil or blank), and never more than one. |
| OrcidProfileRequest.NoProfileErrors | app/models/orcid/profile_request.rb:52-60 | The second check adds no error iff the user has no profile, and never more than one. |
| OrcidProfileRequest.BeforeRunErrors | app/models/orcid/profile_request.rb:47-50 | Validation adds no error iff the identifier is unassigned and the user has no profile. It never adds more than one error. |
| OrcidProfileRequest.AssignedIdShortCircuits | app/models/orcid/profile_request.rb:47-49 | An assigned identifier gives exactly the one "already assigned" error, whatever profiles the user has: the second check is not consulted. |
| OrcidProfileRequest.RecordedRequestFailsValidation | app/models/orcid/profile_request.rb:100-105 | After the transaction has recorded an identifier, the request no longer passes `validate_before_run`. |
| OrcidProfileRequest.ProfileDirectory.ProfileFor | app/models/orcid/profile_request.rb:53 | `Orcid.profile_for(user)`: the profile the user is linked to, if any. This is a definition with no contract. |
| OrcidProfileRequest.ProfileDirectory.Connect | app/models/orcid/profile_request.rb:103 | Linking a user to a profile makes `profile_for(user)` answer that profile. Other users' links are unchanged. |
| OrcidProfileRequest.ProfileRequest.ValidateProfileIdIsUnassigned | app/models/orcid/profile_request.rb:63-69 | Returns true iff the context's identifier is unassigned. The errors gain exactly the check's errors. |
| OrcidProfileRequest.ProfileRequest.ValidateUserDoesNotHaveProfile | app/models/orcid/profile_request.rb:52-60 | Returns true iff the context's user has no profile. On false exactly one error naming the user and the profile is added. |
| OrcidProfileRequest.ProfileRequest.ValidateBeforeRun | app/models/orcid/profile_request.rb:47-50 | Returns true iff both checks pass. It appends exactly the short-circuit combination of their errors. |
| OrcidProfileRequest.ProfileRequest.Run | app/models/orcid/profile_request.rb:21-35 | When the gate fails, `run` returns false: the outcome is `Declined` whatever builder and service are given. When the gate passes, `run` returns the service applied to the builder's result on the current attributes, or raises the builder's error. Only the default validator adds errors. |
| OrcidProfileRequest.ProfileRequest.HandleProfileCreationResponse | app/models/orcid/profile_request.rb:100-105 | It commits iff no step raises. On commit the column holds the identifier and the user is linked to it. On a failure in either step, both the column and the association are as before. |

## Left out

- `lib/orcid/spec_support.rb` is not part of this model. It is an HTTP/OAuth test harness with network calls and environment reads.
- The ActiveRecord declarations are framework behaviour. These are the table name, `alias_attribute`, `belongs_to`, and the presence, uniqueness, email and confirmation validations. `run` does not consult them.
- `find_by_user` is a database query.
- `default_profile_creation_service` is not modelled. It wraps `Orcid::Remote::ProfileCreationService`, which performs the network POST and is not part of this model. The creation service is therefore always supplied in `RunOptions`.
- `OrcidProfileRequest.ProfileRequest.Run`: an injected validator is a pure function of the request's columns. A Ruby callable could also have side effects, such as adding errors; that is not captured.
- The wording of the two validation messages (class name, `to_param`, `inspect`) is not modelled. Each error records only its kind and the identifier, user and profile it mentions. All of them go on `:base`.
- `OrcidProfileRequest.ProfileRequest.Run`: two cases are not modelled. The first is a collaborator given explicitly as `nil` or `false`. There `fetch` returns that value and `.call` raises `NoMethodError`. The second is an injected builder that raises anything other than `KeyError`.
- `OrcidProfileRequest.XmlPayload`: hash values are `nil` or strings. A hash passed directly to `xml_payload` may hold other values, such as an Integer or `true`. Ruby interpolates those with their `to_s` text, which the model cannot represent.
- `OrcidProfileRequest.AttributesOf`: only the four string columns the payload and validation read are in the modelled `attributes` hash. The `id`, `user_id` and timestamp columns are left out.
- `OrcidProfileRequest.Assigned`: `blank?` is modelled on ASCII white space. The Unicode space characters that Ruby's `[[:space:]]` also matches are not.
- `OrcidProfileRequest.ProfileRequest.HandleProfileCreationResponse`: the model covers the persisted state after a rollback, with no exception object. It does not model the in-memory attribute that Rails leaves set after a rolled-back `update_column`.
- The formatting of Ruby `inspect` and `to_s`, and of `Orcid.provider.authentication_scope`, is opaque.
- `OrcidExceptions.EmptyOptionsMessage` states the message in terms of the header constants rather than as one spelled-out string literal.
