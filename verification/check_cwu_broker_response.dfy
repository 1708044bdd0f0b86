/** The answer of the eWUŚ broker to a check of a patient's insurance status
    (CheckCWU): the value object that holds it, its constructor's filtered
    assignment of fields by name, and the reader that takes the fields out
    of the SOAP envelope. */
module BrokerResponse {
  import opened Wrappers
  import opened Xml
  import opened PhpArray
  import DP = DateParsing

  const NS2 := "ns2"
  const NS2Url := "https://ewus.nfz.gov.pl/ws/broker/ewus/status_cwu/v3"
  const NS3 := "ns3"
  const NS3Url := "http://xml.kamsoft.pl/ws/broker"

  /** '/soapenv:Envelope/soapenv:Body/ns3:executeServiceReturn/' */
  const ExecuteServiceReturn: seq<Step> :=
    [Step("soapenv", "Envelope"), Step("soapenv", "Body"), Step(NS3, "executeServiceReturn")]

  /** 'ns3:payload/ns3:textload/ns2:status_cwu_odp' */
  const StatusCwuOdp: seq<Step> :=
    [Step(NS3, "payload"), Step(NS3, "textload"), Step(NS2, "status_cwu_odp")]

  /** A value the object can hold: PHP null, false (what a failed date
      conversion gives), a string, a list of strings, or a parsed date. */
  datatype Value =
    | Null
    | Bool(b: bool)
    | Str(s: string)
    | StrList(items: seq<string>)
    | Stamp(t: DP.DateTime)
    | Day(d: DP.Date)

  /** The declared properties of the response object. */
  datatype Property =
    | Date
    | SystemNfzName
    | SystemNfzVersion
    | ProviderId
    | ProviderIdOw
    | ProviderIdOperator
    | PatientExpiryDate
    | PatientStatusCwu
    | PatientPesel
    | PatientName
    | PatientSurname
    | Signature
    | SignatureCanonicalizationMethod
    | SignatureMethod
    | SignatureReferenceTransforms
    | SignatureReferenceDigestMethod
    | SignatureReferenceDigestValue

  /** `$vars`: the names of the declared properties, in declaration order. */
  const Vars: seq<string> := [
    "date",
    "system_nfz_name",
    "system_nfz_version",
    "provider_id",
    "provider_id_ow",
    "provider_id_operator",
    "patient_expiry_date",
    "patient_status_cwu",
    "patient_pesel",
    "patient_name",
    "patient_surname",
    "signature",
    "signature_canonicalization_method",
    "signature_method",
    "signature_reference_transforms",
    "signature_reference_digest_method",
    "signature_reference_digest_value"
  ]

  /** The property a key names (`$this->{$key}`); None for a key that is
      not in `$vars`. */
  function PropertyNamed(key: string): Option<Property> {
    if key == "date" then Some(Date)
    else if key == "system_nfz_name" then Some(SystemNfzName)
    else if key == "system_nfz_version" then Some(SystemNfzVersion)
    else if key == "provider_id" then Some(ProviderId)
    else if key == "provider_id_ow" then Some(ProviderIdOw)
    else if key == "provider_id_operator" then Some(ProviderIdOperator)
    else if key == "patient_expiry_date" then Some(PatientExpiryDate)
    else if key == "patient_status_cwu" then Some(PatientStatusCwu)
    else if key == "patient_pesel" then Some(PatientPesel)
    else if key == "patient_name" then Some(PatientName)
    else if key == "patient_surname" then Some(PatientSurname)
    else if key == "signature" then Some(Signature)
    else if key == "signature_canonicalization_method" then Some(SignatureCanonicalizationMethod)
    else if key == "signature_method" then Some(SignatureMethod)
    else if key == "signature_reference_transforms" then Some(SignatureReferenceTransforms)
    else if key == "signature_reference_digest_method" then Some(SignatureReferenceDigestMethod)
    else if key == "signature_reference_digest_value" then Some(SignatureReferenceDigestValue)
    else None
  }

  /** The name of a property: the key under which it is given to the
      constructor. */
  function Name(p: Property): string {
    match p
    case Date => "date"
    case SystemNfzName => "system_nfz_name"
    case SystemNfzVersion => "system_nfz_version"
    case ProviderId => "provider_id"
    case ProviderIdOw => "provider_id_ow"
    case ProviderIdOperator => "provider_id_operator"
    case PatientExpiryDate => "patient_expiry_date"
    case PatientStatusCwu => "patient_status_cwu"
    case PatientPesel => "patient_pesel"
    case PatientName => "patient_name"
    case PatientSurname => "patient_surname"
    case Signature => "signature"
    case SignatureCanonicalizationMethod => "signature_canonicalization_method"
    case SignatureMethod => "signature_method"
    case SignatureReferenceTransforms => "signature_reference_transforms"
    case SignatureReferenceDigestMethod => "signature_reference_digest_method"
    case SignatureReferenceDigestValue => "signature_reference_digest_value"
  }

  /** The keys whose properties the constructor never overwrites: none. */
  const Reject: seq<string> := []

  /** The converter of `date`: a string becomes the time stamp it spells out
      in the 'Y-m-d\TH:i:s\.uP' format, or false when it spells out none;
      any other value is returned as it is. */
  function ConvertTimestamp(v: Value): (r: Value)
    ensures !v.Str? ==> r == v
    ensures v.Str? ==> (r.Stamp? <==> exists t :: DP.TimestampInRange(t) && DP.FormatTimestamp(t) == v.s)
    ensures v.Str? && r.Stamp? ==> DP.TimestampInRange(r.t) && DP.FormatTimestamp(r.t) == v.s
    ensures v.Str? && !r.Stamp? ==> r == Bool(false)
  {
    match v
    case Str(s) =>
      DP.TimestampAccepted(s);
      (match DP.ParseTimestamp(s)
       case None => Bool(false)
       case Some(t) => DP.ParseTimestampIsFormatted(s); Stamp(t))
    case _ => v
  }

  /** The converter of `patient_expiry_date`: a string becomes the date it
      spells out in the 'Y-m-d' format, or false; any other value is
      returned as it is. */
  function ConvertDate(v: Value): (r: Value)
    ensures !v.Str? ==> r == v
    ensures v.Str? ==> (r.Day? <==> exists d :: DP.DateInRange(d) && DP.FormatDate(d) == v.s)
    ensures v.Str? && r.Day? ==> DP.DateInRange(r.d) && DP.FormatDate(r.d) == v.s
    ensures v.Str? && !r.Day? ==> r == Bool(false)
  {
    match v
    case Str(s) =>
      DP.DateAccepted(s);
      (match DP.ParseDate(s)
       case None => Bool(false)
       case Some(d) => DP.ParseDateIsFormatted(s); Day(d))
    case _ => v
  }

  /** The value stored for p when v is given for it: only `date` and
      `patient_expiry_date` have a converter, every other value is stored
      as given, and a value that is not null never becomes null. */
  function Convert(p: Property, v: Value): (r: Value)
    ensures p != Date && p != PatientExpiryDate ==> r == v
    ensures !v.Str? ==> r == v
    ensures !v.Null? ==> !r.Null?
  {
    match p
    case Date => ConvertTimestamp(v)
    case PatientExpiryDate => ConvertDate(v)
    case _ => v
  }

  /** Whether the constructor assigns an entry: its key names a declared
      property, its value is not null and its key is not rejected. */
  predicate Accepts(key: string, v: Value) {
    key in Vars && !v.Null? && key !in Reject
  }

  /** The value property p holds after the constructor has gone through
      data: the converted value of the last entry for p that it accepts, or
      null when it accepts none. */
  function Assigned(data: seq<(string, Value)>, p: Property): Value {
    if data == [] then Null
    else
      var last := data[|data| - 1];
      if last.0 == Name(p) && Accepts(last.0, last.1) then Convert(p, last.1)
      else Assigned(data[..|data| - 1], p)
  }

  /** An entry the constructor accepts sets the property its key names and
      leaves every other property as it was. */
  lemma AcceptedEntry(data: seq<(string, Value)>, key: string, v: Value)
    requires Accepts(key, v)
    ensures PropertyNamed(key).Some?
    ensures forall q :: Assigned(data + [(key, v)], q) ==
                        if Some(q) == PropertyNamed(key) then Convert(q, v) else Assigned(data, q)
  {
    VarsNameProperties(key);
    assert (data + [(key, v)])[..|data|] == data;
    forall q ensures (Name(q) == key) == (Some(q) == PropertyNamed(key)) {
      NameNamesProperty(q);
    }
  }

  /** Every name leads back to its property, so no two properties share a
      name, and every name is in `$vars`. */
  lemma NameNamesProperty(p: Property)
    ensures PropertyNamed(Name(p)) == Some(p) && Name(p) in Vars
  {
  }

  /** Two properties never share a name. */
  lemma NamesDiffer(p: Property, q: Property)
    requires p != q
    ensures Name(p) != Name(q)
  {
    NameNamesProperty(p);
    NameNamesProperty(q);
  }

  /** Every name is in `$vars`. */
  lemma NameInVars(p: Property)
    ensures Name(p) in Vars
  {
    NameNamesProperty(p);
  }

  /** The keys in `$vars` are exactly those that name a property, and a key
      names the property whose name it is. */
  lemma {:induction false} VarsNameProperties(key: string)
    ensures key in Vars <==> PropertyNamed(key).Some?
    ensures PropertyNamed(key).Some? ==> Name(PropertyNamed(key).value) == key
  {
    if key == "date" {
    } else if key == "system_nfz_name" {
    } else if key == "system_nfz_version" {
    } else if key == "provider_id" {
    } else if key == "provider_id_ow" {
    } else if key == "provider_id_operator" {
    } else if key == "patient_expiry_date" {
    } else if key == "patient_status_cwu" {
    } else if key == "patient_pesel" {
    } else if key == "patient_name" {
    } else if key == "patient_surname" {
    } else if key == "signature" {
    } else if key == "signature_canonicalization_method" {
    } else if key == "signature_method" {
    } else if key == "signature_reference_transforms" {
    } else if key == "signature_reference_digest_method" {
    } else if key == "signature_reference_digest_value" {
    } else {
      assert key !in Vars by {
        forall i | 0 <= i < |Vars| ensures Vars[i] != key {
        }
      }
    }
  }

  /** The value p holds when the only entry for it is e (None: no entry). */
  function Stored(p: Property, e: Option<Value>): Value {
    match e
    case None => Null
    case Some(v) => if Accepts(Name(p), v) then Convert(p, v) else Null
  }

  /** A property ends up null exactly when no entry for it is accepted; keys
      that name no property, null values and rejected keys leave it null. */
  lemma {:induction false} AssignedNullIff(data: seq<(string, Value)>, p: Property)
    ensures Assigned(data, p).Null? <==>
      forall i :: 0 <= i < |data| && data[i].0 == Name(p) ==> !Accepts(data[i].0, data[i].1)
  {
    if data != [] {
      var init := data[..|data| - 1];
      AssignedNullIff(init, p);
      assert forall i :: 0 <= i < |init| ==> init[i] == data[i];
    }
  }

  /** An entry the constructor does not accept changes no property. */
  lemma IgnoredEntry(data: seq<(string, Value)>, key: string, v: Value)
    requires !Accepts(key, v)
    ensures forall p :: Assigned(data + [(key, v)], p) == Assigned(data, p)
  {
    assert (data + [(key, v)])[..|data|] == data;
  }

  /** When no key is given twice, what a property holds depends only on the
      entry for its name. */
  lemma {:induction false} AssignedOfDistinct(data: seq<(string, Value)>, p: Property)
    requires DistinctKeys(data)
    ensures Assigned(data, p) == Stored(p, Lookup(data, Name(p)))
  {
    if data != [] {
      var init, x := data[..|data| - 1], data[|data| - 1];
      assert data == init + [x];
      DistinctSnoc(init, x);
      LookupSnoc(init, x, Name(p));
      AssignedOfDistinct(init, p);
    }
  }

  /** The prefixes an xpath query of the response resolves: the registered
      ns3 and ns2, except where the declarations in scope at the root element
      bind the same prefix, which take precedence. */
  function Env(doc: Document): map<string, string> {
    map[NS3 := NS3Url, NS2 := NS2Url] + doc.namespaces
  }

  /** `$xml->xpath(path)` on the loaded response. */
  function Find(doc: Document, path: seq<Step>): seq<Element> {
    XPath(doc, Env(doc), path)
  }

  /** NS_EXECUTE_SERVICE_RETURN . NS_STATUS_CWU_ODP */
  const OdpPath: seq<Step> := ExecuteServiceReturn + StatusCwuOdp

  /** NS_EXECUTE_SERVICE_RETURN . 'ns3:date' */
  const DatePath: seq<Step> := ExecuteServiceReturn + [Step(NS3, "date")]

  /** NS_EXECUTE_SERVICE_RETURN . NS_STATUS_CWU_ODP . '/ns2:system_nfz' */
  const SystemNfzPath: seq<Step> := OdpPath + [Step(NS2, "system_nfz")]

  /** The properties read from a leaf under status_cwu_odp, in the order of
      the `$nss` table. */
  const Nss: seq<Property> := [ProviderId, ProviderIdOw, ProviderIdOperator, PatientExpiryDate,
                               PatientStatusCwu, PatientPesel, PatientName, PatientSurname]

  /** The position of a property in `$nss`; |Nss| for the properties that
      are not in it. */
  function NssIndex(p: Property): nat {
    match p
    case ProviderId => 0
    case ProviderIdOw => 1
    case ProviderIdOperator => 2
    case PatientExpiryDate => 3
    case PatientStatusCwu => 4
    case PatientPesel => 5
    case PatientName => 6
    case PatientSurname => 7
    case _ => 8
  }

  /** The property at position k of `$nss` is the one whose position is k. */
  lemma NssIndexAt(k: nat)
    requires k < |Nss|
    ensures NssIndex(Nss[k]) == k
    ensures forall q :: NssIndex(q) == k ==> q == Nss[k]
  {
  }

  /** The properties the reader sets, apart from the transforms, are those
      of `$nss` and the nine it reads outside that table. */
  lemma EveryProperty(q: Property)
    ensures NssIndex(q) < |Nss| ||
      q in {Date, SystemNfzName, SystemNfzVersion, Signature, SignatureCanonicalizationMethod,
            SignatureMethod, SignatureReferenceTransforms, SignatureReferenceDigestMethod,
            SignatureReferenceDigestValue}
  {
  }

  /** The path of `$nss` for a leaf property, relative to status_cwu_odp;
      the other properties have no entry there. */
  function RelativePath(p: Property): seq<Step> {
    match p
    case ProviderId => [Step(NS2, "swiad"), Step(NS2, "id_swiad")]
    case ProviderIdOw => [Step(NS2, "swiad"), Step(NS2, "id_ow")]
    case ProviderIdOperator => [Step(NS2, "swiad"), Step(NS2, "id_operatora")]
    case PatientExpiryDate => [Step(NS2, "pacjent"), Step(NS2, "data_waznosci_potwierdzenia")]
    case PatientStatusCwu => [Step(NS2, "pacjent"), Step(NS2, "status_ubezp")]
    case PatientPesel => [Step(NS2, "numer_pesel")]
    case PatientName => [Step(NS2, "pacjent"), Step(NS2, "imie")]
    case PatientSurname => [Step(NS2, "pacjent"), Step(NS2, "nazwisko")]
    case _ => []
  }

  /** `$cwuOdp[0]`: the first status_cwu_odp element. */
  function Odp(doc: Document): Option<Element> {
    First(Find(doc, OdpPath))
  }

  /** `$cwuOdp[0]->Signature->SignedInfo` */
  function SignedInfo(doc: Document): Option<Element> {
    Child(Child(Odp(doc), "Signature"), "SignedInfo")
  }

  /** `$signedInfo->Reference` */
  function Reference(doc: Document): Option<Element> {
    Child(SignedInfo(doc), "Reference")
  }

  /** `$signedInfo->Reference->Transforms->Transform`, iterated. */
  function Transforms(doc: Document): seq<Element> {
    ChildrenNamed(Child(Reference(doc), "Transforms"), "Transform")
  }

  /** The Algorithm attributes of the elements, one per element and in their
      order. */
  function Algorithms(ts: seq<Element>): seq<string> {
    if ts == [] then []
    else Algorithms(ts[..|ts| - 1]) + [AttributeText(Some(ts[|ts| - 1]), "Algorithm")]
  }

  /** One Algorithm attribute per element, in the elements' order. */
  lemma {:induction false} AlgorithmsAt(ts: seq<Element>)
    ensures |Algorithms(ts)| == |ts|
    ensures forall i :: 0 <= i < |ts| ==> Algorithms(ts)[i] == AttributeText(Some(ts[i]), "Algorithm")
  {
    if ts != [] {
      AlgorithmsAt(ts[..|ts| - 1]);
    }
  }

  /** `$element->attributes()->name` kept uncast: the attribute's text, or
      null where PHP gives null. */
  function AttributeValue(e: Option<Element>, name: string): Value {
    match Attribute(e, name)
    case None => Null
    case Some(a) => Str(a)
  }

  /** Whether reading the response stops with an error: a method is called on
      null when there is no system_nfz element (line 96) or when the first
      status_cwu_odp has no Signature/SignedInfo/Reference (lines 122, 129;
      a property of a missing element is null). */
  predicate Fails(doc: Document) {
    Find(doc, SystemNfzPath) == [] || Reference(doc).None?
  }

  /** The entry the reader puts in the array for each property (None: no
      entry), when it does not fail. */
  function Expected(doc: Document, p: Property): Option<Value> {
    match p
    case Date => Some(Str(Text(First(Find(doc, DatePath)))))
    case SystemNfzName => Some(Str(AttributeText(First(Find(doc, SystemNfzPath)), "nazwa")))
    case SystemNfzVersion => Some(Str(AttributeText(First(Find(doc, SystemNfzPath)), "wersja")))
    case Signature => Some(Str(Text(Child(Child(Odp(doc), "Signature"), "SignatureValue"))))
    case SignatureCanonicalizationMethod =>
      Some(Str(AttributeText(Child(SignedInfo(doc), "CanonicalizationMethod"), "Algorithm")))
    case SignatureMethod => Some(AttributeValue(Child(SignedInfo(doc), "SignatureMethod"), "Algorithm"))
    case SignatureReferenceTransforms =>
      if Transforms(doc) == [] then None else Some(StrList(Algorithms(Transforms(doc))))
    case SignatureReferenceDigestMethod =>
      Some(Str(AttributeText(Child(Reference(doc), "DigestMethod"), "Algorithm")))
    case SignatureReferenceDigestValue => Some(Str(Text(Child(Reference(doc), "DigestValue"))))
    case _ => Some(Str(Text(First(Find(doc, OdpPath + RelativePath(p))))))
  }

  /** A property of `$nss` is read from its leaf under the first
      status_cwu_odp path. */
  lemma LeafExpected(doc: Document, p: Property)
    requires NssIndex(p) < |Nss|
    ensures Expected(doc, p) == Some(Str(Text(First(Find(doc, OdpPath + RelativePath(p))))))
  {
  }

  /** The array under construction, part way through the reader: it holds
      the entry Expected gives each property in done and no entry for the
      others, except the transforms, whose list holds items (no entry while
      items is empty); no property has two entries. */
  ghost predicate Holds(doc: Document, ret: map<Property, Value>, done: set<Property>, items: seq<string>) {
    && (forall q :: q != SignatureReferenceTransforms ==>
          Entry(ret, q) == if q in done then Expected(doc, q) else None)
    && Entry(ret, SignatureReferenceTransforms) ==
         if items == [] then None else Some(StrList(items))
  }

  /** `$return[$key]`: the entry for p, None when there is none. */
  function Entry(ret: map<Property, Value>, p: Property): Option<Value> {
    if p in ret then Some(ret[p]) else None
  }

  /** Once every property but the transforms is done and the transforms
      hold all the Algorithm attributes, the array holds what Expected says. */
  lemma ReadComplete(doc: Document, ret: map<Property, Value>, done: set<Property>)
    requires Holds(doc, ret, done, Algorithms(Transforms(doc)))
    requires forall q :: q != SignatureReferenceTransforms ==> q in done
    ensures forall p :: Entry(ret, p) == Expected(doc, p)
  {
  }

  /** `$a[key][] = x`: appends x to the list under key, or starts one. */
  function AppendItem(a: map<Property, Value>, key: Property, x: string): map<Property, Value> {
    if key in a && a[key].StrList? then a[key := StrList(a[key].items + [x])]
    else a[key := StrList([x])]
  }

  /** `$return[$key] = $v` for the key of p, v being the entry Expected
      gives p. */
  method Store(doc: Document, ret: map<Property, Value>, ghost done: set<Property>,
               ghost items: seq<string>, p: Property, v: Value)
    returns (r: map<Property, Value>)
    requires Holds(doc, ret, done, items)
    requires p != SignatureReferenceTransforms && Expected(doc, p) == Some(v)
    ensures Holds(doc, r, done + {p}, items)
  {
    r := ret[p := v];
  }

  /** `$return['signature_reference_transforms'][] = $x` */
  method StoreItem(doc: Document, ret: map<Property, Value>, ghost done: set<Property>,
                   ghost items: seq<string>, x: string)
    returns (r: map<Property, Value>)
    requires Holds(doc, ret, done, items)
    ensures Holds(doc, r, done, items + [x])
  {
    r := AppendItem(ret, SignatureReferenceTransforms, x);
    if items == [] {
      assert [x] == items + [x];
    }
  }

  /** `foreach (... as $elem) { $return['signature_reference_transforms'][] = ... }`:
      appends the Algorithm attribute of each element, in order. */
  method StoreTransforms(doc: Document, ret: map<Property, Value>, ghost done: set<Property>,
                         transforms: seq<Element>)
    returns (r: map<Property, Value>)
    requires Holds(doc, ret, done, [])
    ensures Holds(doc, r, done, Algorithms(transforms))
  {
    r := ret;
    var t := 0;
    while t < |transforms|
      invariant 0 <= t <= |transforms|
      invariant Holds(doc, r, done, Algorithms(transforms[..t]))
    {
      var algorithm := AttributeText(Some(transforms[t]), "Algorithm");
      assert transforms[..t + 1][..t] == transforms[..t];
      r := StoreItem(doc, r, done, Algorithms(transforms[..t]), algorithm);
      t := t + 1;
    }
    assert transforms[..t] == transforms;
  }

  // Each lemma below states one case of Expected in the terms the reader
  // computes it in. The reader calls them before storing a value, so that
  // its own proofs do not unfold Expected.

  lemma DateEntry(doc: Document)
    ensures Expected(doc, Date) == Some(Str(Text(First(Find(doc, DatePath)))))
  {
  }

  lemma SystemNfzNameEntry(doc: Document, systemNfz: seq<Element>)
    requires systemNfz == Find(doc, SystemNfzPath) && systemNfz != []
    ensures Expected(doc, SystemNfzName) == Some(Str(AttributeText(Some(systemNfz[0]), "nazwa")))
  {
  }

  lemma SystemNfzVersionEntry(doc: Document, systemNfz: seq<Element>)
    requires systemNfz == Find(doc, SystemNfzPath) && systemNfz != []
    ensures Expected(doc, SystemNfzVersion) == Some(Str(AttributeText(Some(systemNfz[0]), "wersja")))
  {
  }

  lemma SignatureEntry(doc: Document, odp: Option<Element>)
    requires odp == Odp(doc)
    ensures Expected(doc, Signature) == Some(Str(Text(Child(Child(odp, "Signature"), "SignatureValue"))))
  {
  }

  lemma CanonicalizationEntry(doc: Document, signedInfo: Option<Element>)
    requires signedInfo == SignedInfo(doc)
    ensures Expected(doc, SignatureCanonicalizationMethod) ==
      Some(Str(AttributeText(Child(signedInfo, "CanonicalizationMethod"), "Algorithm")))
  {
  }

  lemma SignatureMethodEntry(doc: Document, signedInfo: Option<Element>)
    requires signedInfo == SignedInfo(doc)
    ensures Expected(doc, SignatureMethod) == Some(AttributeValue(Child(signedInfo, "SignatureMethod"), "Algorithm"))
  {
  }

  lemma DigestMethodEntry(doc: Document, reference: Option<Element>)
    requires reference == Reference(doc)
    ensures Expected(doc, SignatureReferenceDigestMethod) ==
      Some(Str(AttributeText(Child(reference, "DigestMethod"), "Algorithm")))
  {
  }

  lemma DigestValueEntry(doc: Document, reference: Option<Element>)
    requires reference == Reference(doc)
    ensures Expected(doc, SignatureReferenceDigestValue) == Some(Str(Text(Child(reference, "DigestValue"))))
  {
  }

  /** `$signedInfo->Reference`: its transforms and its digest. None where
      PHP stops with an error, when SignedInfo has no Reference. */
  method ReadReference(doc: Document, ret: map<Property, Value>, ghost before: set<Property>,
                       signedInfo: Option<Element>)
    returns (r: Option<map<Property, Value>>)
    requires signedInfo == SignedInfo(doc)
    requires Holds(doc, ret, before, [])
    ensures r.None? <==> Reference(doc).None?
    ensures r.Some? ==> Holds(doc, r.value, before + {SignatureReferenceDigestMethod}
                                                   + {SignatureReferenceDigestValue},
                              Algorithms(Transforms(doc)))
  {
    var transforms := ChildrenNamed(Child(Child(signedInfo, "Reference"), "Transforms"), "Transform");
    var r0 := StoreTransforms(doc, ret, before, transforms);

    var reference := Child(signedInfo, "Reference");
    if reference.None? {
      return None;
    }
    DigestMethodEntry(doc, reference);
    var digestMethod := Str(AttributeText(Child(reference, "DigestMethod"), "Algorithm"));
    r0 := Store(doc, r0, before, Algorithms(transforms), SignatureReferenceDigestMethod, digestMethod);
    DigestValueEntry(doc, reference);
    var digestValue := Str(Text(Child(reference, "DigestValue")));
    r0 := Store(doc, r0, before + {SignatureReferenceDigestMethod}, Algorithms(transforms),
                SignatureReferenceDigestValue, digestValue);
    return Some(r0);
  }

  /** The CanonicalizationMethod and SignatureMethod algorithms of
      SignedInfo. */
  method ReadSignedInfo(doc: Document, ret: map<Property, Value>, ghost before: set<Property>,
                        signedInfo: Option<Element>)
    returns (r: map<Property, Value>)
    requires signedInfo == SignedInfo(doc)
    requires Holds(doc, ret, before, [])
    ensures Holds(doc, r, before + {SignatureCanonicalizationMethod} + {SignatureMethod}, [])
  {
    CanonicalizationEntry(doc, signedInfo);
    var canonicalization := Str(AttributeText(Child(signedInfo, "CanonicalizationMethod"), "Algorithm"));
    r := Store(doc, ret, before, [], SignatureCanonicalizationMethod, canonicalization);
    SignatureMethodEntry(doc, signedInfo);
    var signatureMethod := AttributeValue(Child(signedInfo, "SignatureMethod"), "Algorithm");
    r := Store(doc, r, before + {SignatureCanonicalizationMethod}, [], SignatureMethod, signatureMethod);
  }

  /** The signature part of the reader: the SignatureValue, the algorithms
      of SignedInfo, the transforms and the digest of its Reference. None
      where PHP stops with an error, which is when the first status_cwu_odp
      has no Signature/SignedInfo/Reference. */
  method ReadSignature(doc: Document, ret: map<Property, Value>, ghost before: set<Property>)
    returns (r: Option<map<Property, Value>>)
    requires Holds(doc, ret, before, [])
    ensures r.None? <==> Reference(doc).None?
    ensures r.Some? ==>
      Holds(doc, r.value, before + {Signature} + {SignatureCanonicalizationMethod} + {SignatureMethod}
                                 + {SignatureReferenceDigestMethod} + {SignatureReferenceDigestValue},
            Algorithms(Transforms(doc)))
  {
    var odp := First(Find(doc, OdpPath));
    var signedInfo := Child(Child(odp, "Signature"), "SignedInfo");
    SignatureEntry(doc, odp);
    var signature := Str(Text(Child(Child(odp, "Signature"), "SignatureValue")));
    var r0 := Store(doc, ret, before, [], Signature, signature);
    if signedInfo.None? {
      return None;
    }
    r0 := ReadSignedInfo(doc, r0, before + {Signature}, signedInfo);
    r := ReadReference(doc, r0, before + {Signature} + {SignatureCanonicalizationMethod} + {SignatureMethod},
                       signedInfo);
  }

  /** Reads the fields of a response into the array handed to the
      constructor; None where PHP stops with an error. */
  method ReadXml(doc: Document) returns (r: Option<map<Property, Value>>)
    ensures r.None? <==> Fails(doc)
    ensures r.Some? ==> forall p :: Entry(r.value, p) == Expected(doc, p)
  {
    var ret: map<Property, Value> := map[];
    ghost var done: set<Property> := {};

    DateEntry(doc);
    var date := Str(Text(First(Find(doc, DatePath))));
    ret := Store(doc, ret, done, [], Date, date);
    done := done + {Date};

    var systemNfz := Find(doc, SystemNfzPath);
    if systemNfz == [] {
      return None;
    }
    SystemNfzNameEntry(doc, systemNfz);
    var name := Str(AttributeText(Some(systemNfz[0]), "nazwa"));
    ret := Store(doc, ret, done, [], SystemNfzName, name);
    done := done + {SystemNfzName};
    SystemNfzVersionEntry(doc, systemNfz);
    var version := Str(AttributeText(Some(systemNfz[0]), "wersja"));
    ret := Store(doc, ret, done, [], SystemNfzVersion, version);
    done := done + {SystemNfzVersion};

    var k := 0;
    while k < |Nss|
      invariant 0 <= k <= |Nss|
      invariant Holds(doc, ret, done, [])
      invariant Date in done && SystemNfzName in done && SystemNfzVersion in done
      invariant forall q :: NssIndex(q) < k ==> q in done
    {
      var p := Nss[k];
      NssIndexAt(k);
      LeafExpected(doc, p);
      var leaf := Str(Text(First(Find(doc, OdpPath + RelativePath(p)))));
      ret := Store(doc, ret, done, [], p, leaf);
      done := done + {p};
      k := k + 1;
    }

    var signed := ReadSignature(doc, ret, done);
    if signed.None? {
      return None;
    }
    ret := signed.value;
    done := done + {Signature} + {SignatureCanonicalizationMethod} + {SignatureMethod}
                 + {SignatureReferenceDigestMethod} + {SignatureReferenceDigestValue};
    forall q | q != SignatureReferenceTransforms ensures q in done {
      EveryProperty(q);
    }
    ReadComplete(doc, ret, done);
    return Some(ret);
  }

  /** Every property, in declaration order: the order in which the reader
      first sets each key of `$return`. */
  const Properties: seq<Property> := [
    Date, SystemNfzName, SystemNfzVersion, ProviderId, ProviderIdOw, ProviderIdOperator,
    PatientExpiryDate, PatientStatusCwu, PatientPesel, PatientName, PatientSurname, Signature,
    SignatureCanonicalizationMethod, SignatureMethod, SignatureReferenceTransforms,
    SignatureReferenceDigestMethod, SignatureReferenceDigestValue]

  /** The array handed to the constructor: the entries of ret under the
      names of their properties (`$return['date']`,
      `$return['system_nfz_name']`, ...), in the order the reader sets them. */
  function Keyed(ret: map<Property, Value>): seq<(string, Value)> {
    KeyedFrom(Properties, ret)
  }

  /** The entries of ret for the properties ps, in the order of ps. */
  function KeyedFrom(ps: seq<Property>, ret: map<Property, Value>): seq<(string, Value)> {
    if ps == [] then []
    else (if ps[0] in ret then [(Name(ps[0]), ret[ps[0]])] else []) + KeyedFrom(ps[1..], ret)
  }

  /** Looking up a property's name finds its entry, when it is one of ps. */
  lemma {:induction false} KeyedFromLookup(ps: seq<Property>, ret: map<Property, Value>, p: Property)
    ensures Lookup(KeyedFrom(ps, ret), Name(p)) == if p in ps then Entry(ret, p) else None
  {
    if ps != [] {
      var rest := KeyedFrom(ps[1..], ret);
      KeyedFromLookup(ps[1..], ret, p);
      assert p in ps <==> p == ps[0] || p in ps[1..] by {
        assert ps == [ps[0]] + ps[1..];
      }
      if ps[0] in ret {
        var e := (Name(ps[0]), ret[ps[0]]);
        LookupCons(e, rest, Name(p));
        if ps[0] != p {
          NamesDiffer(ps[0], p);
        }
      } else {
        assert KeyedFrom(ps, ret) == rest;
      }
    }
  }


  /** Properties listed once each keep their names distinct. */
  lemma {:induction false} KeyedFromDistinct(ps: seq<Property>, ret: map<Property, Value>)
    requires forall i, j :: 0 <= i < j < |ps| ==> ps[i] != ps[j]
    ensures DistinctKeys(KeyedFrom(ps, ret))
  {
    if ps != [] {
      var rest := KeyedFrom(ps[1..], ret);
      assert forall i, j :: 0 <= i < j < |ps[1..]| ==> ps[1..][i] != ps[1..][j] by {
        forall i, j | 0 <= i < j < |ps[1..]| ensures ps[1..][i] != ps[1..][j] {
          assert ps[1..][i] == ps[i + 1] && ps[1..][j] == ps[j + 1];
        }
      }
      KeyedFromDistinct(ps[1..], ret);
      if ps[0] in ret {
        KeyedFromLookup(ps[1..], ret, ps[0]);
        assert ps[0] !in ps[1..] by {
          forall i | 0 <= i < |ps[1..]| ensures ps[1..][i] != ps[0] {
            assert ps[1..][i] == ps[i + 1];
          }
        }
        DistinctCons((Name(ps[0]), ret[ps[0]]), rest);
      } else {
        assert KeyedFrom(ps, ret) == rest;
      }
    }
  }

  /** The place of p in Properties. */
  function Position(p: Property): nat {
    match p
    case Date => 0
    case SystemNfzName => 1
    case SystemNfzVersion => 2
    case ProviderId => 3
    case ProviderIdOw => 4
    case ProviderIdOperator => 5
    case PatientExpiryDate => 6
    case PatientStatusCwu => 7
    case PatientPesel => 8
    case PatientName => 9
    case PatientSurname => 10
    case Signature => 11
    case SignatureCanonicalizationMethod => 12
    case SignatureMethod => 13
    case SignatureReferenceTransforms => 14
    case SignatureReferenceDigestMethod => 15
    case SignatureReferenceDigestValue => 16
  }

  /** Every property is listed in Properties, once. */
  lemma PropertiesListed(p: Property)
    ensures Position(p) < |Properties| && Properties[Position(p)] == p
    ensures forall i :: 0 <= i < |Properties| ==> Position(Properties[i]) == i
  {
  }

  /** The named array has distinct keys, and looking up a property's name
      in it finds the entry of that property. */
  lemma KeyedLookup(ret: map<Property, Value>, p: Property)
    ensures DistinctKeys(Keyed(ret))
    ensures Lookup(Keyed(ret), Name(p)) == Entry(ret, p)
  {
    PropertiesListed(p);
    KeyedFromDistinct(Properties, ret);
    KeyedFromLookup(Properties, ret, p);
  }

  /** When the first status_cwu_odp has the leaf of a `$nss` property, the
      property is read from that leaf, whatever the later status_cwu_odp
      elements hold. */
  lemma LeafFromFirstOdp(doc: Document, p: Property)
    requires NssIndex(p) < |Nss|
    requires Odp(doc).Some?
    requires Select([Odp(doc).value], Resolve(RelativePath(p), Env(doc)).value) != []
    ensures Expected(doc, p) ==
      Some(Str(Select([Odp(doc).value], Resolve(RelativePath(p), Env(doc)).value)[0].text))
  {
    XPathFirstUnderFirst(doc, Env(doc), OdpPath, RelativePath(p));
  }

  /** Likewise, the system_nfz name and version come from the first
      status_cwu_odp whenever it has a system_nfz child. */
  lemma SystemNfzFromFirstOdp(doc: Document)
    requires Odp(doc).Some?
    requires Select([Odp(doc).value], Resolve([Step(NS2, "system_nfz")], Env(doc)).value) != []
    ensures var nfz := Select([Odp(doc).value], Resolve([Step(NS2, "system_nfz")], Env(doc)).value)[0];
      && Expected(doc, SystemNfzName) == Some(Str(AttributeText(Some(nfz), "nazwa")))
      && Expected(doc, SystemNfzVersion) == Some(Str(AttributeText(Some(nfz), "wersja")))
  {
    XPathFirstUnderFirst(doc, Env(doc), OdpPath, [Step(NS2, "system_nfz")]);
  }

  /** The date of a response that is read ends up as the time stamp its text
      spells out, or as false when the text spells out none. */
  lemma CreatedDate(doc: Document)
    ensures var text := Text(First(Find(doc, DatePath)));
      var v := Stored(Date, Expected(doc, Date));
      && (v.Stamp? <==> exists t :: DP.TimestampInRange(t) && DP.FormatTimestamp(t) == text)
      && (v.Stamp? ==> DP.FormatTimestamp(v.t) == text)
      && (!v.Stamp? ==> v == Bool(false))
  {
    NameInVars(Date);
  }

  /** The expiry date of the confirmation ends up as the date its text
      spells out, or as false. */
  lemma CreatedExpiryDate(doc: Document)
    ensures var text := Text(First(Find(doc, OdpPath + RelativePath(PatientExpiryDate))));
      var v := Stored(PatientExpiryDate, Expected(doc, PatientExpiryDate));
      && (v.Day? <==> exists d :: DP.DateInRange(d) && DP.FormatDate(d) == text)
      && (v.Day? ==> DP.FormatDate(v.d) == text)
      && (!v.Day? ==> v == Bool(false))
  {
    NameInVars(PatientExpiryDate);
  }

  /** The transforms end up as the Algorithm attributes of the Transform
      elements, one per element and in document order; with no Transform
      element the key is never set and the property stays null, not an empty
      list. */
  lemma CreatedTransforms(doc: Document)
    ensures var ts := Transforms(doc);
      var v := Stored(SignatureReferenceTransforms, Expected(doc, SignatureReferenceTransforms));
      && (ts == [] ==> v == Null)
      && (ts != [] ==> v.StrList? && |v.items| == |ts|)
      && (v.StrList? ==> forall i :: 0 <= i < |v.items| ==>
            i < |ts| && v.items[i] == AttributeText(Some(ts[i]), "Algorithm"))
  {
    NameInVars(SignatureReferenceTransforms);
    AlgorithmsAt(Transforms(doc));
  }

  /** Every other property ends up holding exactly the value the reader
      read for it. */
  lemma CreatedVerbatim(doc: Document, p: Property)
    requires p !in {Date, PatientExpiryDate, SignatureReferenceTransforms}
    ensures Expected(doc, p).Some? && Stored(p, Expected(doc, p)) == Expected(doc, p).value
  {
    NameInVars(p);
  }

  /** The response object. Only the constructor writes its fields; the
      getters read them. */
  class CheckCwuBrokerResponse {
    /** The array the object was constructed from. */
    ghost const source: seq<(string, Value)>

    var date: Value
    var systemNfzName: Value
    var systemNfzVersion: Value
    var providerId: Value
    var providerIdOw: Value
    var providerIdOperator: Value
    var patientExpiryDate: Value
    var patientStatusCwu: Value
    var patientPesel: Value
    var patientName: Value
    var patientSurname: Value
    var signature: Value
    var signatureCanonicalizationMethod: Value
    var signatureMethod: Value
    var signatureReferenceTransforms: Value
    var signatureReferenceDigestMethod: Value
    var signatureReferenceDigestValue: Value

    /** `$this->{$name}`: the field of a property. */
    function Get(p: Property): Value
      reads this
    {
      match p
      case Date => date
      case SystemNfzName => systemNfzName
      case SystemNfzVersion => systemNfzVersion
      case ProviderId => providerId
      case ProviderIdOw => providerIdOw
      case ProviderIdOperator => providerIdOperator
      case PatientExpiryDate => patientExpiryDate
      case PatientStatusCwu => patientStatusCwu
      case PatientPesel => patientPesel
      case PatientName => patientName
      case PatientSurname => patientSurname
      case Signature => signature
      case SignatureCanonicalizationMethod => signatureCanonicalizationMethod
      case SignatureMethod => signatureMethod
      case SignatureReferenceTransforms => signatureReferenceTransforms
      case SignatureReferenceDigestMethod => signatureReferenceDigestMethod
      case SignatureReferenceDigestValue => signatureReferenceDigestValue
    }

    /** Every field holds what going through data assigns to it. */
    ghost predicate StoredFrom(data: seq<(string, Value)>)
      reads this
    {
      forall p :: Get(p) == Assigned(data, p)
    }

    ghost predicate Valid()
      reads this
    {
      StoredFrom(source)
    }

    /** `$this->{$name} = $v`: one step of the constructor's loop. It is the
        only writer of the fields and is not part of the object's public
        behaviour; on its own it does not keep Valid(). */
    method Write(p: Property, v: Value)
      modifies this
      ensures Get(p) == v
      ensures forall q :: q != p ==> Get(q) == old(Get(q))
    {
      match p
      case Date => date := v;
      case SystemNfzName => systemNfzName := v;
      case SystemNfzVersion => systemNfzVersion := v;
      case ProviderId => providerId := v;
      case ProviderIdOw => providerIdOw := v;
      case ProviderIdOperator => providerIdOperator := v;
      case PatientExpiryDate => patientExpiryDate := v;
      case PatientStatusCwu => patientStatusCwu := v;
      case PatientPesel => patientPesel := v;
      case PatientName => patientName := v;
      case PatientSurname => patientSurname := v;
      case Signature => signature := v;
      case SignatureCanonicalizationMethod => signatureCanonicalizationMethod := v;
      case SignatureMethod => signatureMethod := v;
      case SignatureReferenceTransforms => signatureReferenceTransforms := v;
      case SignatureReferenceDigestMethod => signatureReferenceDigestMethod := v;
      case SignatureReferenceDigestValue => signatureReferenceDigestValue := v;
    }

    /** Goes through data in order and assigns each accepted entry, through
        its property's converter, to the property its key names. */
    constructor (data: seq<(string, Value)>)
      ensures source == data && Valid()
    {
      source := data;
      date, systemNfzName, systemNfzVersion := Null, Null, Null;
      providerId, providerIdOw, providerIdOperator := Null, Null, Null;
      patientExpiryDate, patientStatusCwu, patientPesel := Null, Null, Null;
      patientName, patientSurname := Null, Null;
      signature, signatureCanonicalizationMethod, signatureMethod := Null, Null, Null;
      signatureReferenceTransforms, signatureReferenceDigestMethod := Null, Null;
      signatureReferenceDigestValue := Null;
      new;
      var i := 0;
      while i < |data|
        invariant 0 <= i <= |data| && source == data
        invariant StoredFrom(data[..i])
      {
        var key, value := data[i].0, data[i].1;
        assert data[..i + 1] == data[..i] + [(key, value)];
        if key in Vars && !value.Null? && key !in Reject {
          VarsNameProperties(key);
          var p := PropertyNamed(key).value;
          Write(p, Convert(p, value));
          AcceptedEntry(data[..i], key, value);
        } else {
          IgnoredEntry(data[..i], key, value);
        }
        i := i + 1;
      }
      assert data[..i] == data;
    }

    /** `createFromXml`: reads the response and constructs the object from
        what it read; None where PHP stops with an error. */
    static method CreateFromXml(doc: Document) returns (r: Option<CheckCwuBrokerResponse>)
      ensures r.None? <==> Fails(doc)
      ensures r.Some? ==> fresh(r.value) && r.value.Valid()
      ensures r.Some? ==> forall p :: r.value.Get(p) == Stored(p, Expected(doc, p))
    {
      var read := ReadXml(doc);
      if read.None? {
        return None;
      }
      var data := Keyed(read.value);
      var response := new CheckCwuBrokerResponse(data);
      forall p ensures response.Get(p) == Stored(p, Expected(doc, p)) {
        KeyedLookup(read.value, p);
        AssignedOfDistinct(data, p);
      }
      return Some(response);
    }

    function GetDate(): (r: Value)
      reads this
      requires Valid()
      ensures r == Assigned(source, Date)
    {
      date
    }

    function GetSystemNfzName(): (r: Value)
      reads this
      requires Valid()
      ensures r == Assigned(source, SystemNfzName)
    {
      systemNfzName
    }

    function GetSystemNfzVersion(): (r: Value)
      reads this
      requires Valid()
      ensures r == Assigned(source, SystemNfzVersion)
    {
      systemNfzVersion
    }

    function GetProviderId(): (r: Value)
      reads this
      requires Valid()
      ensures r == Assigned(source, ProviderId)
    {
      providerId
    }

    function GetProviderIdOw(): (r: Value)
      reads this
      requires Valid()
      ensures r == Assigned(source, ProviderIdOw)
    {
      providerIdOw
    }

    function GetProviderIdOperator(): (r: Value)
      reads this
      requires Valid()
      ensures r == Assigned(source, ProviderIdOperator)
    {
      providerIdOperator
    }

    function GetPatientExpiryDate(): (r: Value)
      reads this
      requires Valid()
      ensures r == Assigned(source, PatientExpiryDate)
    {
      patientExpiryDate
    }

    function GetPatientStatusCwu(): (r: Value)
      reads this
      requires Valid()
      ensures r == Assigned(source, PatientStatusCwu)
    {
      patientStatusCwu
    }

    function GetPatientPesel(): (r: Value)
      reads this
      requires Valid()
      ensures r == Assigned(source, PatientPesel)
    {
      patientPesel
    }

    function GetPatientName(): (r: Value)
      reads this
      requires Valid()
      ensures r == Assigned(source, PatientName)
    {
      patientName
    }

    function GetPatientSurname(): (r: Value)
      reads this
      requires Valid()
      ensures r == Assigned(source, PatientSurname)
    {
      patientSurname
    }

    function GetSignature(): (r: Value)
      reads this
      requires Valid()
      ensures r == Assigned(source, Signature)
    {
      signature
    }

    function GetSignatureCanonicalizationMethod(): (r: Value)
      reads this
      requires Valid()
      ensures r == Assigned(source, SignatureCanonicalizationMethod)
    {
      signatureCanonicalizationMethod
    }

    function GetSignatureMethod(): (r: Value)
      reads this
      requires Valid()
      ensures r == Assigned(source, SignatureMethod)
    {
      signatureMethod
    }

    function GetSignatureReferenceTransforms(): (r: Value)
      reads this
      requires Valid()
      ensures r == Assigned(source, SignatureReferenceTransforms)
    {
      signatureReferenceTransforms
    }

    function GetSignatureReferenceDigestMethod(): (r: Value)
      reads this
      requires Valid()
      ensures r == Assigned(source, SignatureReferenceDigestMethod)
    {
      signatureReferenceDigestMethod
    }

    function GetSignatureReferenceDigestValue(): (r: Value)
      reads this
      requires Valid()
      ensures r == Assigned(source, SignatureReferenceDigestValue)
    {
      signatureReferenceDigestValue
    }
  }
}
