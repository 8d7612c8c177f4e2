/** The campaign form: when it may be submitted, and how one input event
    changes the form record. The change handler writes a value under the
    event's field name, so the record is read and written here field by field,
    through the name each input carries. */
module AdForm {
  import opened Wrappers
  import opened AdTypes

  /** The seven fields of the form record, in declaration order. */
  datatype Field = ProductName | Industry | TargetAudience | PlatformField | ToneField | CtaField | IncludeEmojis

  const AllFields: seq<Field> :=
    [ProductName, Industry, TargetAudience, PlatformField, ToneField, CtaField, IncludeEmojis]

  /** The property name of each field, which is also the `name` of its input. */
  function FieldKey(n: Field): string {
    match n
    case ProductName => "productName"
    case Industry => "industry"
    case TargetAudience => "targetAudience"
    case PlatformField => "platform"
    case ToneField => "tone"
    case CtaField => "cta"
    case IncludeEmojis => "includeEmojis"
  }

  function FieldFromKey(s: string): (r: Option<Field>)
    ensures r.Some? ==> FieldKey(r.value) == s
    ensures forall n :: FieldKey(n) == s ==> r == Some(n)
  {
    if s == "productName" then Some(ProductName)
    else if s == "industry" then Some(Industry)
    else if s == "targetAudience" then Some(TargetAudience)
    else if s == "platform" then Some(PlatformField)
    else if s == "tone" then Some(ToneField)
    else if s == "cta" then Some(CtaField)
    else if s == "includeEmojis" then Some(IncludeEmojis)
    else None
  }

  /** A value stored in the form object: the text of an input or select, or a checkbox state. */
  datatype FieldValue = Str(s: string) | Flag(b: bool)

  /** The value a field holds; enum fields hold their string identifiers. */
  function Get(f: AdFormData, n: Field): FieldValue {
    match n
    case ProductName => Str(f.productName)
    case Industry => Str(f.industry)
    case TargetAudience => Str(f.targetAudience)
    case PlatformField => Str(PlatformId(f.platform))
    case ToneField => Str(ToneId(f.tone))
    case CtaField => Str(CallToActionId(f.cta))
    case IncludeEmojis => Flag(f.includeEmojis)
  }

  /** Whether a value is one the field can hold. */
  predicate Fits(n: Field, v: FieldValue) {
    match n
    case PlatformField => v.Str? && PlatformFromId(v.s).Some?
    case ToneField => v.Str? && ToneFromId(v.s).Some?
    case CtaField => v.Str? && CallToActionFromId(v.s).Some?
    case IncludeEmojis => v.Flag?
    case _ => v.Str?
  }

  /** The record with one field overwritten, when the value fits it. */
  function Set(f: AdFormData, n: Field, v: FieldValue): (r: Option<AdFormData>)
    ensures r.Some? <==> Fits(n, v)
    ensures r.Some? ==> Get(r.value, n) == v
    ensures r.Some? ==> forall m :: m != n ==> Get(r.value, m) == Get(f, m)
  {
    match n
    case ProductName => if v.Str? then Some(f.(productName := v.s)) else None
    case Industry => if v.Str? then Some(f.(industry := v.s)) else None
    case TargetAudience => if v.Str? then Some(f.(targetAudience := v.s)) else None
    case PlatformField =>
      if v.Str? && PlatformFromId(v.s).Some? then Some(f.(platform := PlatformFromId(v.s).value)) else None
    case ToneField =>
      if v.Str? && ToneFromId(v.s).Some? then Some(f.(tone := ToneFromId(v.s).value)) else None
    case CtaField =>
      if v.Str? && CallToActionFromId(v.s).Some? then Some(f.(cta := CallToActionFromId(v.s).value)) else None
    case IncludeEmojis => if v.Flag? then Some(f.(includeEmojis := v.b)) else None
  }

  /** The record has exactly seven fields, with distinct names. */
  lemma FieldsEnumerated()
    ensures |AllFields| == 7 && forall n :: n in AllFields
    ensures forall i, j :: 0 <= i < j < |AllFields| ==> FieldKey(AllFields[i]) != FieldKey(AllFields[j])
  {
    forall n ensures n in AllFields {
      match n
      case ProductName => case Industry => case TargetAudience => case PlatformField =>
      case ToneField => case CtaField => case IncludeEmojis =>
    }
    forall i, j | 0 <= i < j < |AllFields| ensures FieldKey(AllFields[i]) != FieldKey(AllFields[j]) {
      assert FieldFromKey(FieldKey(AllFields[i])) == Some(AllFields[i]);
    }
  }

  /** The seven fields make up the whole record: two records agreeing on
      every field are equal. */
  lemma FieldsDetermineRecord(f: AdFormData, g: AdFormData)
    requires forall n :: Get(f, n) == Get(g, n)
    ensures f == g
  {
    assert Get(f, PlatformField) == Get(g, PlatformField);
    assert PlatformFromId(PlatformId(f.platform)) == Some(f.platform);
    assert Get(f, ToneField) == Get(g, ToneField);
    assert ToneFromId(ToneId(f.tone)) == Some(f.tone);
    assert Get(f, CtaField) == Get(g, CtaField);
    assert CallToActionFromId(CallToActionId(f.cta)) == Some(f.cta);
    assert Get(f, ProductName) == Get(g, ProductName);
    assert Get(f, Industry) == Get(g, Industry);
    assert Get(f, TargetAudience) == Get(g, TargetAudience);
    assert Get(f, IncludeEmojis) == Get(g, IncludeEmojis);
  }

  /** An input event: the target's name, value and type, and its checked state. */
  datatype ChangeEvent = ChangeEvent(name: string, value: string, inputType: string, checked: bool)

  /** The value the handler stores: a checkbox's checked state, any other input's value. */
  function EventValue(e: ChangeEvent): FieldValue {
    if e.inputType == "checkbox" then Flag(e.checked) else Str(e.value)
  }

  /** The change handler: the previous record with the event's value written
      under the event's name. None when the result would not be a form
      record: an unknown name, or a value the field cannot hold (events no
      input of the form produces). */
  function ApplyChange(prev: AdFormData, e: ChangeEvent): (r: Option<AdFormData>)
    ensures r.Some? <==> FieldFromKey(e.name).Some? && Fits(FieldFromKey(e.name).value, EventValue(e))
    ensures r.Some? ==> forall n :: Get(r.value, n) == if FieldKey(n) == e.name then EventValue(e) else Get(prev, n)
  {
    match FieldFromKey(e.name)
    case None => None
    case Some(n) => Set(prev, n, EventValue(e))
  }

  /** A checkbox event stores its checked state, whatever its value text. */
  lemma CheckboxStoresChecked(prev: AdFormData, e: ChangeEvent)
    requires e.name == "includeEmojis" && e.inputType == "checkbox"
    ensures ApplyChange(prev, e) == Some(prev.(includeEmojis := e.checked))
  {
    FieldsDetermineRecord(ApplyChange(prev, e).value, prev.(includeEmojis := e.checked));
  }

  /** A text input event stores the input's value in its field, and only there. */
  lemma TextInputStoresValue(prev: AdFormData, e: ChangeEvent)
    requires e.name in {"productName", "industry", "targetAudience"} && e.inputType != "checkbox"
    ensures e.name == "productName" ==> ApplyChange(prev, e) == Some(prev.(productName := e.value))
    ensures e.name == "industry" ==> ApplyChange(prev, e) == Some(prev.(industry := e.value))
    ensures e.name == "targetAudience" ==> ApplyChange(prev, e) == Some(prev.(targetAudience := e.value))
  {
    var r := ApplyChange(prev, e).value;
    if e.name == "productName" { FieldsDetermineRecord(r, prev.(productName := e.value)); }
    else if e.name == "industry" { FieldsDetermineRecord(r, prev.(industry := e.value)); }
    else { FieldsDetermineRecord(r, prev.(targetAudience := e.value)); }
  }

  /** The options of each select: the identifiers of its enumeration, in declaration order. */
  function PlatformOptions(): seq<string> {
    seq(|AllPlatforms|, i requires 0 <= i < |AllPlatforms| => PlatformId(AllPlatforms[i]))
  }

  function ToneOptions(): seq<string> {
    seq(|AllTones|, i requires 0 <= i < |AllTones| => ToneId(AllTones[i]))
  }

  function CallToActionOptions(): seq<string> {
    seq(|AllCallsToAction|, i requires 0 <= i < |AllCallsToAction| => CallToActionId(AllCallsToAction[i]))
  }

  /** Choosing the `i`-th option of the platform select sets the platform to
      the `i`-th member of the enumeration, and changes nothing else. */
  lemma SelectingPlatformOption(prev: AdFormData, i: nat, inputType: string, checked: bool)
    requires inputType != "checkbox"
    ensures |PlatformOptions()| == 8
    ensures i < 8 ==>
      ApplyChange(prev, ChangeEvent("platform", PlatformOptions()[i], inputType, checked)) == Some(prev.(platform := AllPlatforms[i]))
  {
    if i < 8 {
      var e := ChangeEvent("platform", PlatformOptions()[i], inputType, checked);
      assert PlatformFromId(PlatformOptions()[i]) == Some(AllPlatforms[i]);
      FieldsDetermineRecord(ApplyChange(prev, e).value, prev.(platform := AllPlatforms[i]));
    }
  }

  /** The same for the tone select. */
  lemma SelectingToneOption(prev: AdFormData, i: nat, inputType: string, checked: bool)
    requires inputType != "checkbox"
    ensures |ToneOptions()| == 7
    ensures i < 7 ==>
      ApplyChange(prev, ChangeEvent("tone", ToneOptions()[i], inputType, checked)) == Some(prev.(tone := AllTones[i]))
  {
    if i < 7 {
      var e := ChangeEvent("tone", ToneOptions()[i], inputType, checked);
      assert ToneFromId(ToneOptions()[i]) == Some(AllTones[i]);
      FieldsDetermineRecord(ApplyChange(prev, e).value, prev.(tone := AllTones[i]));
    }
  }

  /** The same for the call-to-action select. */
  lemma SelectingCallToActionOption(prev: AdFormData, i: nat, inputType: string, checked: bool)
    requires inputType != "checkbox"
    ensures |CallToActionOptions()| == 7
    ensures i < 7 ==>
      ApplyChange(prev, ChangeEvent("cta", CallToActionOptions()[i], inputType, checked)) == Some(prev.(cta := AllCallsToAction[i]))
  {
    if i < 7 {
      var e := ChangeEvent("cta", CallToActionOptions()[i], inputType, checked);
      assert CallToActionFromId(CallToActionOptions()[i]) == Some(AllCallsToAction[i]);
      FieldsDetermineRecord(ApplyChange(prev, e).value, prev.(cta := AllCallsToAction[i]));
    }
  }

  /** `isFormValid`: both required text fields are non-empty. */
  predicate IsFormValid(f: AdFormData) {
    |f.productName| > 0 && |f.industry| > 0
  }

  /** The submit button's `disabled` condition. */
  predicate SubmitDisabled(f: AdFormData, isLoading: bool) {
    !IsFormValid(f) || isLoading
  }

  /** Valid exactly when product name and industry are both non-empty; the
      target audience and the other fields play no part. */
  lemma ValidityRule(f: AdFormData, audience: string, p: Platform, t: Tone, c: CallToAction, emojis: bool)
    ensures IsFormValid(f) <==> f.productName != "" && f.industry != ""
    ensures IsFormValid(f.(targetAudience := audience, platform := p, tone := t, cta := c, includeEmojis := emojis)) == IsFormValid(f)
  {
  }

  /** Submission is disabled exactly when the form is invalid or a generation is loading. */
  lemma SubmitRule(f: AdFormData, isLoading: bool)
    ensures SubmitDisabled(f, isLoading) <==> (f.productName == "" || f.industry == "" || isLoading)
  {
  }
}
