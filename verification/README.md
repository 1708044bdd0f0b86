# eWUŚ client core in Dafny

A model of two pieces of the PHP client for the eWUŚ service of the Polish
National Health Fund (NFZ), with proofs about them:

- **CheckCwuBrokerResponse** (module `BrokerResponse`). This is the answer to a CheckCWU
  insurance-status request.
  - `createFromXml` reads the fields out of the SOAP envelope:
    - the date;
    - the `nazwa` and `wersja` attributes of `ns2:system_nfz`;
    - eight leaf fields under `ns2:status_cwu_odp`;
    - the XML Signature block (`SignatureValue`, the `CanonicalizationMethod`
      and `SignatureMethod` algorithms of `SignedInfo`, and the transforms
      and digest of its `Reference`).
  - It hands what it read to the constructor as a PHP array.
  - The constructor assigns an entry to the field its key names only if the
    key is a declared property, the value is not null and the key is not
    rejected.
  - Along the way it runs the time stamp and the confirmation's expiry date
    through `DateTime::createFromFormat`.
  - The getters return the fields.
- **EwusAuthSoapClient** (module `AuthSoapClient`). This is the login and
  logout handshake.
  - `getCredentials` builds the credential list, whose shape depends on the
    provider type.
  - `authLogin` reads the `[ddd] message` status line and the `session` and
    `authToken` header ids of the reply, with two distinct error outcomes.
  - `authLogout` sends the two tokens back as SOAP headers. It reduces the
    reply to a boolean by comparing it case-insensitively with `wylogowany`.

Supporting modules:

- `Xml` models a parsed document as a tree of elements and covers the two
  ways the reader looks into it:
  - `xpath()` over absolute paths of child steps, with namespace prefixes
    resolved through the registered `ns2`/`ns3` bindings and the
    declarations in scope at the root;
  - SimpleXML property access (`->Name`, `attributes()`, the string cast).
- `DateParsing` reads a string against the fixed formats
  `Y-m-d\TH:i:s\.uP` and `Y-m-d`, piece by piece. The check is
  structural. Each parser is proved to accept exactly the texts that its
  formatter writes.
- `PhpArray` models an ordered PHP array of key/value entries.

How the model is shaped:

- The constructor and the reader are imperative, as in the source.
  - The constructor is a loop over the array that writes the object's
    fields one at a time.
  - The reader fills its array step by step, with one loop over the `$nss`
    table and one over the `Transform` elements.
- Each method is proved against the specification functions:
  - `Assigned` says what a field holds after the constructor's loop;
  - `Expected` says what entry the reader stores for each property;
  - `Fails` says when reading stops with an error.
- Lemmas then relate these functions to what the source promises.

The model follows what the code does, not a stricter contract it might be
expected to keep:

- A missing leaf, attribute or signature element gives the empty string.
  The code casts the `null` it gets to a string; it raises no
  missing-field error.
- A date the format does not match is stored as `false`, which is what
  `createFromFormat` returns. It is not reported as a format error.
- The only failures are those where the code calls a method on `null`:
  - no `system_nfz` element (line 96);
  - a first `status_cwu_odp` without `Signature/SignedInfo/Reference`
    (lines 122 and 129).
- The `catch (Exception $e)` at line 132 catches no such failure. Inside
  the namespace `Ewus\BrokerResponse` it names a class of that namespace,
  and calling a method on `null` raises an `Error` in any case. So the
  `InvalidArgumentException` is never thrown, and the model reports these
  failures as `None`.

## Model

| member | source | states |
|---|---|---|
| BrokerResponse.CheckCwuBrokerResponse.constructor | src/Ewus/BrokerResponse/CheckCwuBrokerResponse.php:55-74 | after the loop over the array, every field holds what going through the entries in order assigns it: the converted value of the last accepted entry for its name, or null when no entry for it is accepted |
| BrokerResponse.CheckCwuBrokerResponse.Write | src/Ewus/BrokerResponse/CheckCwuBrokerResponse.php:71 | `$this->{$key} = ...` sets the one field named and leaves the other sixteen as they were |
| BrokerResponse.AcceptedEntry | src/Ewus/BrokerResponse/CheckCwuBrokerResponse.php:69-72 | an entry whose key is in `$vars`, whose value is not null and whose key is not rejected sets the property its key names, through that property's converter, and changes no other property |
| BrokerResponse.IgnoredEntry | src/Ewus/BrokerResponse/CheckCwuBrokerResponse.php:70 | an entry that fails the test of line 70 (unknown key, null value or rejected key) changes no property |
| BrokerResponse.Accepts | src/Ewus/BrokerResponse/CheckCwuBrokerResponse.php:70 | the test of line 70: the key is in `$vars`, the value is not null and the key is not in the (empty) reject list |
| BrokerResponse.Assigned | src/Ewus/BrokerResponse/CheckCwuBrokerResponse.php:69-73 | defines what a field holds after the loop over `$data`: the converted value of the last entry for its name that passes the test of line 70, or null when none does |
| BrokerResponse.AssignedNullIff | src/Ewus/BrokerResponse/CheckCwuBrokerResponse.php:55-73 | a field stays null exactly when no entry for its name is accepted |
| BrokerResponse.AssignedOfDistinct | src/Ewus/BrokerResponse/CheckCwuBrokerResponse.php:69-73 | when no key occurs twice, a field depends only on the entry for its own name |
| BrokerResponse.VarsNameProperties | src/Ewus/BrokerResponse/CheckCwuBrokerResponse.php:68 | the names in `$vars` are exactly the keys that name a declared property, and each names the property of that name |
| BrokerResponse.NameNamesProperty | src/Ewus/BrokerResponse/CheckCwuBrokerResponse.php:29-45 | each declared property's name leads back to that property (no two share a name) and is in `$vars` |
| BrokerResponse.ConvertTimestamp | src/Ewus/BrokerResponse/CheckCwuBrokerResponse.php:61-63 | a string becomes a time stamp exactly when it is the `Y-m-d\TH:i:s\.uP` text of one, and then that time stamp; otherwise false; a value that is not a string is returned untouched |
| BrokerResponse.ConvertDate | src/Ewus/BrokerResponse/CheckCwuBrokerResponse.php:64-66 | a string becomes a date exactly when it is the `Y-m-d` text of one, and then that date; otherwise false; a value that is not a string is returned untouched |
| BrokerResponse.Convert | src/Ewus/BrokerResponse/CheckCwuBrokerResponse.php:60-71 | only `date` and `patient_expiry_date` have a converter, every other value is stored as given; a converter leaves values that are not strings untouched and never yields null |
| BrokerResponse.CheckCwuBrokerResponse.CreateFromXml | src/Ewus/BrokerResponse/CheckCwuBrokerResponse.php:85-137 | fails exactly when there is no `system_nfz` element or the first `status_cwu_odp` lacks `Signature/SignedInfo/Reference`; otherwise returns a fresh object, built by the constructor, whose every field holds the accepted and converted entry the reader stored for it |
| BrokerResponse.Fails | src/Ewus/BrokerResponse/CheckCwuBrokerResponse.php:95-129 | defines when reading stops with an error: a method called on null because there is no `system_nfz` element (line 96), or because the first `status_cwu_odp` has no `Signature/SignedInfo/Reference` (lines 122, 129) |
| BrokerResponse.Expected | src/Ewus/BrokerResponse/CheckCwuBrokerResponse.php:92-130 | defines the entry the reader puts in `$return` for each key: the date text, the `nazwa`/`wersja` attributes of the first `system_nfz`, the leaf texts of `$nss`, and the signature fields read from the first `status_cwu_odp`; no transforms entry when there is no `Transform` element |
| BrokerResponse.Env | src/Ewus/BrokerResponse/CheckCwuBrokerResponse.php:89-90 | the prefixes an xpath query resolves: `ns3` and `ns2` bound to their URLs as registered, except where a declaration in scope at the root element binds the same prefix, which takes precedence |
| BrokerResponse.Find | src/Ewus/BrokerResponse/CheckCwuBrokerResponse.php:92 | `$xml->xpath(path)` on the loaded response, with those prefixes |
| BrokerResponse.RelativePath | src/Ewus/BrokerResponse/CheckCwuBrokerResponse.php:100-109 | the `$nss` table: each leaf property's path below `status_cwu_odp`, step by step |
| BrokerResponse.AttributeValue | src/Ewus/BrokerResponse/CheckCwuBrokerResponse.php:123 | `...->attributes()->Algorithm` kept uncast: the attribute's text, or null when it or its element is missing |
| BrokerResponse.Odp | src/Ewus/BrokerResponse/CheckCwuBrokerResponse.php:117-118 | `$cwuOdp[0]`: the first element the status_cwu_odp path selects, none when it selects nothing |
| BrokerResponse.SignedInfo | src/Ewus/BrokerResponse/CheckCwuBrokerResponse.php:118 | `$cwuOdp[0]->Signature->SignedInfo`: the first unprefixed `SignedInfo` child of the first unprefixed `Signature` child |
| BrokerResponse.Reference | src/Ewus/BrokerResponse/CheckCwuBrokerResponse.php:125 | `$signedInfo->Reference`: the first unprefixed `Reference` child of `SignedInfo` |
| BrokerResponse.Transforms | src/Ewus/BrokerResponse/CheckCwuBrokerResponse.php:125 | `$signedInfo->Reference->Transforms->Transform`, iterated: the unprefixed `Transform` children of the first `Transforms`, in document order; none when an element on the way is missing |
| BrokerResponse.ReadXml | src/Ewus/BrokerResponse/CheckCwuBrokerResponse.php:86-130 | fails exactly in those cases; otherwise the array holds, for every property, exactly the entry `Expected` defines (the transforms only when there is at least one) |
| BrokerResponse.ReadSignature | src/Ewus/BrokerResponse/CheckCwuBrokerResponse.php:117-130 | stores the signature value, both `SignedInfo` algorithms, the transforms and the digest, all taken from the first `status_cwu_odp`; fails exactly when that element has no `Signature/SignedInfo/Reference` |
| BrokerResponse.ReadSignedInfo | src/Ewus/BrokerResponse/CheckCwuBrokerResponse.php:118-123 | stores the canonicalization algorithm (cast to a string) and the signature method (not cast: null when absent) of `SignedInfo`, and nothing else |
| BrokerResponse.ReadReference | src/Ewus/BrokerResponse/CheckCwuBrokerResponse.php:125-130 | stores the transforms, the digest method and the digest value of `Reference`; fails exactly when `SignedInfo` has no `Reference` |
| BrokerResponse.StoreTransforms | src/Ewus/BrokerResponse/CheckCwuBrokerResponse.php:125-127 | after the loop the transform list holds the Algorithm attribute of each `Transform` element in document order, and there is no entry when there is no element |
| BrokerResponse.StoreItem | src/Ewus/BrokerResponse/CheckCwuBrokerResponse.php:126 | `$return[...][] = $x` appends one algorithm to the list, starting the list when there is none, and changes no other entry |
| BrokerResponse.Store | src/Ewus/BrokerResponse/CheckCwuBrokerResponse.php:112-113 | `$return[$key] = ...` sets the entry of one property to the value `Expected` gives it and changes no other entry |
| BrokerResponse.AlgorithmsAt | src/Ewus/BrokerResponse/CheckCwuBrokerResponse.php:125-127 | one algorithm per `Transform` element, in the elements' order, with nothing reordered or dropped |
| BrokerResponse.LeafExpected | src/Ewus/BrokerResponse/CheckCwuBrokerResponse.php:100-114 | each of the eight `$nss` properties is read at `NS_EXECUTE_SERVICE_RETURN . NS_STATUS_CWU_ODP . <its path>`, as the text of the first match (empty when there is none) |
| BrokerResponse.ReadComplete | src/Ewus/BrokerResponse/CheckCwuBrokerResponse.php:86-130 | once every property but the transforms has been stored and the transform list is complete, the array holds exactly the entries `Expected` defines |
| BrokerResponse.KeyedLookup | src/Ewus/BrokerResponse/CheckCwuBrokerResponse.php:136 | the array handed to the constructor has no key twice and gives each property's name the entry the reader stored for it |
| BrokerResponse.Keyed | src/Ewus/BrokerResponse/CheckCwuBrokerResponse.php:136 | the array passed to the constructor: one entry, keyed by its name, for each property the reader set, in the order the reader sets them |
| BrokerResponse.LeafFromFirstOdp | src/Ewus/BrokerResponse/CheckCwuBrokerResponse.php:112-113 | when the first `status_cwu_odp` has the leaf, the field is that leaf's text, whatever later `status_cwu_odp` elements hold |
| BrokerResponse.SystemNfzFromFirstOdp | src/Ewus/BrokerResponse/CheckCwuBrokerResponse.php:95-98 | name and version are the `nazwa` and `wersja` attributes of one and the same `system_nfz` element, the first under the first `status_cwu_odp` |
| BrokerResponse.CreatedDate | src/Ewus/BrokerResponse/CheckCwuBrokerResponse.php:92-93 | the date ends up as the time stamp its text spells out, exactly when it spells one out, and as false otherwise |
| BrokerResponse.CreatedExpiryDate | src/Ewus/BrokerResponse/CheckCwuBrokerResponse.php:104 | the expiry date of the confirmation ends up as the date its text spells out, exactly when it spells one out, and as false otherwise |
| BrokerResponse.CreatedTransforms | src/Ewus/BrokerResponse/CheckCwuBrokerResponse.php:125-127 | the transforms field holds one algorithm per `Transform` element in document order; with no element it stays null, not an empty list |
| BrokerResponse.CreatedVerbatim | src/Ewus/BrokerResponse/CheckCwuBrokerResponse.php:70-71 | every field other than the two dates and the transforms holds exactly the value the reader read for it |
| BrokerResponse.CheckCwuBrokerResponse.GetDate | src/Ewus/BrokerResponse/CheckCwuBrokerResponse.php:142-144 | returns what the constructor assigned to `date` from its array |
| BrokerResponse.CheckCwuBrokerResponse.GetSystemNfzName | src/Ewus/BrokerResponse/CheckCwuBrokerResponse.php:149-151 | returns what the constructor assigned to `system_nfz_name` |
| BrokerResponse.CheckCwuBrokerResponse.GetSystemNfzVersion | src/Ewus/BrokerResponse/CheckCwuBrokerResponse.php:156-158 | returns what the constructor assigned to `system_nfz_version` |
| BrokerResponse.CheckCwuBrokerResponse.GetProviderId | src/Ewus/BrokerResponse/CheckCwuBrokerResponse.php:163-165 | returns what the constructor assigned to `provider_id` |
| BrokerResponse.CheckCwuBrokerResponse.GetProviderIdOw | src/Ewus/BrokerResponse/CheckCwuBrokerResponse.php:170-172 | returns what the constructor assigned to `provider_id_ow` |
| BrokerResponse.CheckCwuBrokerResponse.GetProviderIdOperator | src/Ewus/BrokerResponse/CheckCwuBrokerResponse.php:177-179 | returns what the constructor assigned to `provider_id_operator` |
| BrokerResponse.CheckCwuBrokerResponse.GetPatientExpiryDate | src/Ewus/BrokerResponse/CheckCwuBrokerResponse.php:184-186 | returns what the constructor assigned to `patient_expiry_date` |
| BrokerResponse.CheckCwuBrokerResponse.GetPatientStatusCwu | src/Ewus/BrokerResponse/CheckCwuBrokerResponse.php:191-193 | returns what the constructor assigned to `patient_status_cwu` |
| BrokerResponse.CheckCwuBrokerResponse.GetPatientPesel | src/Ewus/BrokerResponse/CheckCwuBrokerResponse.php:198-200 | returns what the constructor assigned to `patient_pesel` |
| BrokerResponse.CheckCwuBrokerResponse.GetPatientName | src/Ewus/BrokerResponse/CheckCwuBrokerResponse.php:205-207 | returns what the constructor assigned to `patient_name` |
| BrokerResponse.CheckCwuBrokerResponse.GetPatientSurname | src/Ewus/BrokerResponse/CheckCwuBrokerResponse.php:212-214 | returns what the constructor assigned to `patient_surname` |
| BrokerResponse.CheckCwuBrokerResponse.GetSignature | src/Ewus/BrokerResponse/CheckCwuBrokerResponse.php:219-221 | returns what the constructor assigned to `signature` |
| BrokerResponse.CheckCwuBrokerResponse.GetSignatureCanonicalizationMethod | src/Ewus/BrokerResponse/CheckCwuBrokerResponse.php:226-228 | returns what the constructor assigned to `signature_canonicalization_method` |
| BrokerResponse.CheckCwuBrokerResponse.GetSignatureMethod | src/Ewus/BrokerResponse/CheckCwuBrokerResponse.php:233-235 | returns what the constructor assigned to `signature_method` |
| BrokerResponse.CheckCwuBrokerResponse.GetSignatureReferenceTransforms | src/Ewus/BrokerResponse/CheckCwuBrokerResponse.php:240-242 | returns what the constructor assigned to `signature_reference_transforms` |
| BrokerResponse.CheckCwuBrokerResponse.GetSignatureReferenceDigestMethod | src/Ewus/BrokerResponse/CheckCwuBrokerResponse.php:247-249 | returns what the constructor assigned to `signature_reference_digest_method` |
| BrokerResponse.CheckCwuBrokerResponse.GetSignatureReferenceDigestValue | src/Ewus/BrokerResponse/CheckCwuBrokerResponse.php:254-256 | returns what the constructor assigned to `signature_reference_digest_value` |
| Xml.Resolve | src/Ewus/BrokerResponse/CheckCwuBrokerResponse.php:89-90 | a path's prefixes resolve exactly when each is bound, giving one expanded name per step |
| Xml.ResolveAt | src/Ewus/BrokerResponse/CheckCwuBrokerResponse.php:89-90 | each step resolves to the namespace its prefix is bound to, with its own local name |
| Xml.ResolveAppend | src/Ewus/BrokerResponse/CheckCwuBrokerResponse.php:26-27 | a path built by concatenating the path constants resolves exactly when each part does, to the concatenation of their resolutions |
| Xml.XPath | src/Ewus/BrokerResponse/CheckCwuBrokerResponse.php:92 | `$xml->xpath(path)`: the elements an absolute path of child steps selects, in document order; none when a prefix is unbound |
| Xml.FilterMembers | src/Ewus/BrokerResponse/CheckCwuBrokerResponse.php:92 | a child step keeps exactly the children whose expanded name matches |
| Xml.ChildrenMatchingConcat | src/Ewus/BrokerResponse/CheckCwuBrokerResponse.php:112 | a child step over two runs of context nodes selects from each run, in order |
| Xml.SelectConcat | src/Ewus/BrokerResponse/CheckCwuBrokerResponse.php:112 | a relative path over two runs of context nodes selects from each run, in document order |
| Xml.SelectAppend | src/Ewus/BrokerResponse/CheckCwuBrokerResponse.php:112 | a concatenated path selects what its second part selects from the result of its first part |
| Xml.SelectMatchesLastStep | src/Ewus/BrokerResponse/CheckCwuBrokerResponse.php:117 | every element a path selects has the name of the path's last step |
| Xml.XPathFirstUnderFirst | src/Ewus/BrokerResponse/CheckCwuBrokerResponse.php:112-113 | when the first element selected by a path has a match for a continuation, the first match of the whole path lies under that first element |
| Xml.First | src/Ewus/BrokerResponse/CheckCwuBrokerResponse.php:93 | `[0]` of an xpath result is its first element, and null exactly when the result is empty |
| Xml.UnprefixedMembers | src/Ewus/BrokerResponse/CheckCwuBrokerResponse.php:118 | `->Name` keeps exactly the children with that local name written without a prefix |
| Xml.ChildrenNamed | src/Ewus/BrokerResponse/CheckCwuBrokerResponse.php:125 | `$element->Name` iterated: the unprefixed children with that local name, in order; none from a missing element |
| Xml.Child | src/Ewus/BrokerResponse/CheckCwuBrokerResponse.php:118 | `$element->Name` used as one element: the first of those children |
| Xml.Text | src/Ewus/BrokerResponse/CheckCwuBrokerResponse.php:93 | `(string) $element`: its text, or the empty string for null |
| Xml.Attribute | src/Ewus/BrokerResponse/CheckCwuBrokerResponse.php:123 | `$element->attributes()->name`: the unprefixed attribute, or null when it or the element is missing |
| Xml.AttributeText | src/Ewus/BrokerResponse/CheckCwuBrokerResponse.php:97 | `(string) ...attributes()[name]`: the attribute text, or the empty string for null |
| DateParsing.DigitsValue | src/Ewus/BrokerResponse/CheckCwuBrokerResponse.php:62 | a run of n decimal digits denotes a number below 10^n |
| DateParsing.PadDigits | src/Ewus/BrokerResponse/CheckCwuBrokerResponse.php:62 | a number written in a field of width w takes exactly w decimal digits |
| DateParsing.PadDigitsValue | src/Ewus/BrokerResponse/CheckCwuBrokerResponse.php:62 | a number below 10^w written in w digits reads back as itself |
| DateParsing.PadDigitsOfValue | src/Ewus/BrokerResponse/CheckCwuBrokerResponse.php:62 | a run of digits is written back unchanged from its value, leading zeros included |
| DateParsing.Scan | src/Ewus/BrokerResponse/CheckCwuBrokerResponse.php:62 | a string that is read against a format yields one number per digit field and per sign |
| DateParsing.ScanRender | src/Ewus/BrokerResponse/CheckCwuBrokerResponse.php:62 | reading what the formatter wrote gives back the same numbers |
| DateParsing.RenderScan | src/Ewus/BrokerResponse/CheckCwuBrokerResponse.php:62 | whatever is read, the numbers fit the format and are written back as the same string |
| DateParsing.TimestampLayoutFits | src/Ewus/BrokerResponse/CheckCwuBrokerResponse.php:62 | ten numbers fit `Y-m-d\TH:i:s\.uP` exactly when each is below its field's bound (year 4 digits, microseconds 6, the sign 0 or 1, the others 2) |
| DateParsing.ParseFormatTimestamp | src/Ewus/BrokerResponse/CheckCwuBrokerResponse.php:62 | every time stamp within the format's widths is read back from its text |
| DateParsing.ParseTimestampIsFormatted | src/Ewus/BrokerResponse/CheckCwuBrokerResponse.php:62 | whatever time stamp the parser reads is within the widths, and its text is the string read |
| DateParsing.TimestampAccepted | src/Ewus/BrokerResponse/CheckCwuBrokerResponse.php:62 | a string is accepted exactly when it is the text of some time stamp |
| DateParsing.ParseTimestamp | src/Ewus/BrokerResponse/CheckCwuBrokerResponse.php:62 | the time stamp s spells out in the fixed-width `Y-m-d\TH:i:s\.uP` layout; none on every other string, which includes some strings `createFromFormat` accepts |
| DateParsing.DateLayoutFits | src/Ewus/BrokerResponse/CheckCwuBrokerResponse.php:65 | three numbers fit `Y-m-d` exactly when the year is below 10000 and month and day below 100 |
| DateParsing.ParseFormatDate | src/Ewus/BrokerResponse/CheckCwuBrokerResponse.php:65 | every date within the format's widths is read back from its text |
| DateParsing.ParseDateIsFormatted | src/Ewus/BrokerResponse/CheckCwuBrokerResponse.php:65 | whatever date the parser reads is within the widths, and its text is the string read |
| DateParsing.DateAccepted | src/Ewus/BrokerResponse/CheckCwuBrokerResponse.php:65 | a string is accepted exactly when it is the text of some date |
| DateParsing.ParseDate | src/Ewus/BrokerResponse/CheckCwuBrokerResponse.php:65 | the date s spells out in the fixed-width `Y-m-d` layout; none on every other string, which includes some strings `createFromFormat` accepts |
| AuthSoapClient.GetCredentials | src/Ewus/SoapClient/EwusAuthSoapClient.php:89-105 | the list starts with `domain` and `login` carrying domain and username; it has exactly these two entries when the provider type or code is null, and otherwise two more, `type` with the type and then the code, named `idntSwd` exactly when the type is `SWD` and `idntLek` for any other type |
| AuthSoapClient.CredentialListUnique | src/Ewus/SoapClient/EwusAuthSoapClient.php:89-105 | those conditions leave only one list for given parameters |
| AuthSoapClient.ParseStatusLine | src/Ewus/SoapClient/EwusAuthSoapClient.php:48-50 | `preg_match` with the status-line pattern: on a match, a code of exactly three digits and a message such that the reply is exactly `[` + code + `] ` + message |
| AuthSoapClient.ParseStatusLineOf | src/Ewus/SoapClient/EwusAuthSoapClient.php:30 | a status line `[code] msg` is parsed back into the same code and message exactly when the code is three digits |
| AuthSoapClient.ParsedIsStatusLine | src/Ewus/SoapClient/EwusAuthSoapClient.php:48-50 | every reply that matches the pattern is `[` + three digits + `] ` + message, the message being the whole rest |
| AuthSoapClient.HeaderId | src/Ewus/SoapClient/EwusAuthSoapClient.php:55-61 | `isset($header[name]->id)` and that id: a present header gives exactly its id (none when it carries none), an absent one gives none |
| AuthSoapClient.AuthLogin | src/Ewus/SoapClient/EwusAuthSoapClient.php:39-68 | sends the credential list and the password; a fault is passed on; a reply that is no status line gives bad credentials; a status line without both header ids gives an unexpected response; otherwise the outcome is the code, the message and exactly the two ids |
| AuthSoapClient.LogoutHeaders | src/Ewus/SoapClient/EwusAuthSoapClient.php:77-80 | two headers in the common namespace, `authToken` then `session`, carrying the caller's tokens and not marked mustUnderstand |
| AuthSoapClient.Lower | src/Ewus/SoapClient/EwusAuthSoapClient.php:86 | `strtolower` keeps the length and lower-cases each character on its own |
| AuthSoapClient.LogoutConfirmed | src/Ewus/SoapClient/EwusAuthSoapClient.php:83-86 | a fault gives false; a confirmed logout has a reply of the length of `wylogowany` |
| AuthSoapClient.AuthLogout | src/Ewus/SoapClient/EwusAuthSoapClient.php:76-86 | sends exactly the two logout headers built from the caller's tokens; the result is false on a fault and otherwise whether the lower-cased reply is `wylogowany` |
| AuthSoapClient.AuthLogoutIff | src/Ewus/SoapClient/EwusAuthSoapClient.php:81-86 | logout is confirmed exactly when there is no fault and the reply spells `wylogowany` with each letter in either case |

Proof helpers, which state facts about the model's own tables and layouts
rather than behaviour of the source, have no row:
- `BrokerResponse.NssIndexAt` and `BrokerResponse.EveryProperty` (the
  position of each property in `$nss`);
- `BrokerResponse.NamesDiffer` and `BrokerResponse.NameInVars` (corollaries
  of `NameNamesProperty`);
- `DateParsing.TimestampLayoutSlots`, `DateParsing.DateLayoutSlots` and
  `DateParsing.Pow10` (the layouts' slot counts and the width bound);
- the one-case lemmas the reader calls before each store (`DateEntry`,
  `SignatureEntry` and the like), and `ScanNumber`, `KeyedFromLookup`,
  `KeyedFromDistinct` and `PropertiesListed`.

## Left out

- The SOAP transport is not modelled: `__soapCall`, `SoapHeader`, the
  `EwusSoapClient` parent class and the network. The reply of a call is an
  input: a fault, or the reply text with the `id` of each header. The
  out-parameter `$header` becomes that map.
- XML text parsing is not modelled. `simplexml_load_string` and libxml's
  namespace lookup are replaced by an already-parsed document, so text that
  is not well-formed XML cannot be given to the model.
  - The namespaces an xpath query sees are the registered `ns2`/`ns3`
    bindings, overridden by the declarations in scope at the root.
  - Only the absolute child-step paths the reader uses are modelled.
- DateParsing.ParseTimestamp: reads only the fixed-width text of
  `Y-m-d\TH:i:s\.uP` and gives none on the other strings `createFromFormat`
  accepts, such as a fraction of fewer than six digits or a one-digit month,
  day or hour, and other offset spellings.
- DateParsing.ParseDate: reads only the fixed-width text of `Y-m-d` and
  gives none on the other strings `createFromFormat` accepts, such as
  `2020-5-1`.
- BrokerResponse.ConvertTimestamp: through ParseTimestamp, accepts the fixed-width text of the
  format only. `createFromFormat` also accepts a few shorter digit runs and
  other offset spellings. It normalises out-of-range values such as month 13
  where the model keeps the raw fields. Time zone objects are not modelled.
- BrokerResponse.ConvertDate: the same structural reading of `Y-m-d`. The
  time of day PHP fills in from the clock is not modelled.
- BrokerResponse.ReadSignedInfo: `signature_method` is a SimpleXML object
  in PHP, not cast to a string. The model keeps its text, or null when the
  attribute is absent.
- The kind of failure is not distinguished. Where PHP stops with an error,
  the model returns `None`. It does not model the notices and warnings PHP
  emits for the `null` it reads on the way.
- The reader's `$return` is modelled as a map from property to value. The
  array the constructor receives is rebuilt from it in declaration order,
  which is the order in which the reader first sets each key. No key occurs
  twice, so the order does not change what the constructor assigns
  (`AssignedOfDistinct`).
- PHP's loose comparisons (`in_array`, `==` on the provider type) are
  modelled as string equality. Every key and type involved is a string.
- `strtolower` is modelled as ASCII lower-casing.
- The XML signature is never checked cryptographically, in the code or in
  the model. The model only copies its fields.
