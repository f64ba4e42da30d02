# pySBOL2 part-shop, Interaction and Component-role rules in Dafny

This project models three pieces of the pySBOL2 library (a Python library for
SBOL 2, the Synthetic Biology Open Language) and proves properties of them:

1. **PartShop**, the client for an online parts repository. The model covers its
   constructor's URL checks and the pure logic inside `pull`:
   - how the argument becomes a list of endpoints;
   - how each endpoint becomes a request URI ending in `/sbol`, or in `/sbolnr` for a non-recursive pull;
   - how a reply's status becomes an SBOL error;
   - what a pull leaves in the target Document.

   The HTTP transport is a parameter (`fetch`). It gives the response to each
   request by its position in the pull, so repeated requests to one URI may get
   different responses, and a request may fail in the transport itself.
   Reading a reply body into the
   Document is recorded as an opaque effect: the body is appended to a log.
2. **Interaction**, the declaration of four property slots:
   - three owned child containers for FunctionalComponent, Participation and
     Measurement, each `0..*`;
   - the `types` URI slot, `1..*`, seeded with the constructor's interaction type.

   It also covers the `types` accessor, which reads and writes that one slot.
3. **Component roles**: the rule linking `roles` and `roleIntegration`. It
   implements the SBOL 2.3.0 requirement that a Component with roles has a
   roleIntegration. The Component class is not part of this model, so the rule
   is specified only from the assertions of its unit test.

Modules:
- `Results`: `Option` and `Result`.
- `SbolErrors`: the raised errors and their SBOL error codes.
- `Vocabulary`: URI constants.
- `PartShop`.
- `Property`: a generic bounded slot.
- `Interaction`.
- `ComponentRoles`.

`SetTypes` and `AddChild` require the object invariant (`DeclaredSchema`, `WellFormed`).
`NewInteraction` establishes it, and `MutationsKeepWellFormed` shows that every later mutation keeps it.
So these requires rule out only states no Interaction can reach.

`pull` changes the Document in place, so the `readString` calls made before a
failing endpoint are not undone. `PullOutcome` carries that partial Document.

## Model

| member | source | states |
|---|---|---|
| PartShop.NewShop | sbol/partshop.py:32-40 | construction succeeds iff neither URL ends in `/`; the resource URL is checked first; both failures carry SBOL_ERROR_INVALID_ARGUMENT; a new shop has resource = url, spoofed resource = spoofed_url and an empty key |
| PartShop.NewShopWithDefaults | sbol/partshop.py:19-40 | with the spoofed URL left at its default `''`, construction succeeds iff the URL does not end in `/`, giving resource = url, empty key and empty spoofed resource |
| PartShop.SlashTerminatedUrlRejected | sbol/partshop.py:35-37 | every URL of the form prefix + `/` is rejected as an invalid resource URL, whatever the spoofed URL |
| PartShop.SlashTerminatedSpoofedUrlRejected | sbol/partshop.py:38-40 | once the URL passes, every spoofed URL of the form prefix + `/` is rejected as an invalid spoofed URL |
| PartShop.OnlyFinalCharacterInspected | sbol/partshop.py:35-40 | empty URLs pass; URLs that share their last character get the same verdict, whatever comes before it |
| PartShop.Endpoints | sbol/partshop.py:61-67 | a string gives a one-element endpoint list; a list is used unchanged; any other type raises TypeError naming that type |
| PartShop.RequestUri | sbol/partshop.py:68-71 | the request URI starts with the endpoint and continues with exactly `/sbol` when recursive and `/sbolnr` when not |
| PartShop.ParseRequestUriInverts | sbol/partshop.py:68-71 | the request URI is the endpoint plus `/sbol` (recursive) or `/sbolnr` (non-recursive): stripping the suffix recovers the endpoint and the flag |
| PartShop.RequestUriInjective | sbol/partshop.py:68-71 | two (endpoint, recursive) pairs give the same request URI only if they are equal |
| PartShop.CheckResponse | sbol/partshop.py:75-83 | a transport failure propagates as the HTTP library's exception; for a reply, status 404 gives SBOL_ERROR_NOT_FOUND; else 401 gives SBOL_ERROR_HTTP_UNAUTHORIZED; else a falsy response gives SBOL_ERROR_BAD_HTTP_REQUEST; the reply is read iff none of these applies |
| PartShop.ReadStep | sbol/partshop.py:87-88 | reading one more reply appends its body to the Document and puts the shop's resource among its resource namespaces |
| PartShop.StopAtRejected | sbol/partshop.py:78-83 | a rejected reply ends the pull with that reply's error; the `readString` calls made before it are not undone |
| PartShop.ContinueAfterAccepted | sbol/partshop.py:84-88 | an accepted reply is read into the Document and the loop moves to the next endpoint |
| PartShop.PullEndpoints | sbol/partshop.py:68-88 | requests go out one per endpoint in list order, each to that endpoint's request URI, and stop at the first rejected reply, which gives the error; every earlier reply was accepted and read in order; the resource is a namespace once any reply was read |
| PartShop.Pull | sbol/partshop.py:50-88 | a bad argument type raises TypeError before any request and leaves the Document unchanged; otherwise the outcome is that of the loop over the endpoint list (requests in list order, stop at the first rejected response with its classified error, accepted replies read in order); a single URI gives exactly one request; nothing read means the Document is unchanged |
| PartShop.PullWithDefaults | sbol/partshop.py:50-88 | with `recursive` left at its default `True`, the pull behaves as above and every request URI ends in `/sbol` |
| PartShop.RepeatedEndpointCanFailLater | sbol/partshop.py:68-83 | each request is sent afresh: for the list `[a, a]`, a first reply that is accepted and a second that is 404 give a pull that reads the first body and then fails with SBOL_ERROR_NOT_FOUND |
| Property.Write | sbol/interaction.py:31-33 | a write succeeds iff the new count is within the declared bounds; a successful read returns exactly the written values and keeps the declaration; a refused write is a cardinality violation |
| Property.Append | sbol/interaction.py:13-24 | appending to a container keeps earlier children in insertion order and the declaration; it fails only if the upper bound is reached |
| Property.LastWriteWins | sbol/interaction.py:27-33 | after a successful write, a second write gives the same outcome as if it had been the only write |
| Interaction.NewInteraction | sbol/interaction.py:10-24 | a new Interaction carries the declared schema (predicates; `0..*` containers accepting FunctionalComponent, Participation and Measurement; `types` `1..*`; only functionalComponents has rule 18); the containers are empty; `types` holds exactly the constructor's interaction type |
| Interaction.DefaultInteraction | sbol/interaction.py:10-12 | the defaults are rdf_type SBOL_INTERACTION, uri `example` and `types` = [SBO_INTERACTION] |
| Interaction.Types | sbol/interaction.py:27-29 | on any well-formed Interaction the getter returns at least one URI |
| Interaction.SetTypes | sbol/interaction.py:31-33 | the setter succeeds iff the list is non-empty; the getter then returns the written list and nothing else changes; an empty list is a cardinality violation; well-formedness is kept |
| Interaction.AddChild | sbol/interaction.py:13-24 | a container accepts a child iff the child has its declared type, else a type mismatch; the child is appended after the existing ones; the other containers, `types` and the identity are unchanged; well-formedness is kept |
| Interaction.MutationsKeepWellFormed | sbol/interaction.py:17-18 | after any sequence of `types` writes and child additions, accepted or refused, the Interaction keeps its schema and bounds; in particular `types` is never empty |
| ComponentRoles.NewComponent | test/test_component.py:9-12 | a new Component has the given identity, no roles and roleIntegration None |
| ComponentRoles.ValidateRoleIntegration | test/test_component.py:13-19 | the auto-correction always yields a consistent Component (roles present implies roleIntegration set); when roles are present and roleIntegration is unset it fills in SBOL_ROLE_INTEGRATION_MERGE; it never changes the roles or an already-set roleIntegration; on a consistent Component it does nothing |
| ComponentRoles.SetRoles | test/test_component.py:13-24 | a roles write stores the list; with roleIntegration unset, a non-empty list sets it to SBOL_ROLE_INTEGRATION_MERGE and an empty list leaves it unset; a set roleIntegration is kept, even when roles become empty |
| ComponentRoles.SetRoleIntegration | test/test_component.py:20-24 | an explicit roleIntegration write is stored exactly as given and leaves the roles alone |
| ComponentRoles.RoleRuleIdempotent | test/test_component.py:13-19 | re-running the auto-correction is a no-op, and writing the same roles twice equals writing them once |
| ComponentRoles.RoleScenario | test/test_component.py:8-24 | the test's assignment sequence gives: None and [] at first, MERGE after roles = [SO_PROMOTER], and OVERRIDE kept after roles = [] |
| ComponentRoles.ApplyAllCharacterised | test/test_component.py:13-24 | after any sequence of writes, roleIntegration is the last explicit write if there is one; otherwise the initial value if set; otherwise MERGE if a non-empty roles list was ever written; otherwise unset. The roles are those last written, and every state after at least one write is consistent |
| ComponentRoles.RoleIntegrationNeverCleared | test/test_component.py:21-24 | once set, roleIntegration stays set through every later write |

## Left out

- HTTP transport (`requests.get`), `login`, `getpass` and credential handling: network and console I/O. Replies come from the `fetch` parameter.
- The truthiness of a `requests` response is the `ok` field of `Response`. The library is not part of this model.
- Logging setup, the debug pretty-printing and the `Config` option reads and writes: ambient global state and I/O.
- `doc.readString`: the serialisation format is not part of this model. `Document.loaded` is the list of bodies passed to `readString`, in call order, not the Document's contents.
- `doc.readString` is assumed never to raise, so the model cannot express a reply that passes the status checks but fails to parse. Such a reply would end the pull before the resource is added to the namespaces.
- `doc.readString` is assumed never to change `resource_namespaces`, so namespaces present before the pull are kept.
- `count`, `sparqlQuery` and `submit`: they only raise NotImplementedError. The commented-out `submit` body is dead code.
- Error messages are not modelled, only which error is raised. The bad-request error carries the status code instead of the response object.
- The TypeError message renders `type(uris)`; the model keeps that rendering as an opaque `typeName` string.
- A list argument whose elements are not strings would fail at the `+=` or at the request; a nested list would be extended in place. The model's lists hold strings only.
- `OwnedObject`, `URIProperty` and `Identified` are not part of this model. Not modelled:
  - how an identity is derived from `uri` (the identity is the argument as given);
  - parent pointers, ownership transfer, removal and duplicate-identity checks;
  - a `types` write of a single string instead of a list.
- What `libsbol_rule_18` checks is not part of this model; the rule is recorded by name only.
- Property.Write: the cardinality check enforces only the declared bounds. `URIProperty.set` is not part of this model.
- The Component class is not part of this model. Not modelled:
  - its other properties;
  - how its identity is derived;
  - writing None to `roleIntegration`.
- The URI constants take their values from the SBOL 2.3 vocabulary, because `sbol/constants.py` is not part of this model. No proof depends on their particular values.
