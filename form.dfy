/**
 * The checks and request bodies of the two forms: the new-operation form
 * (`ajouterOperation`, sent with POST) and the edit prompts
 * (`modifierOperation`, sent with PUT). `parseFloat` is a parameter: it maps
 * the text typed into the amount field to a number of cents or to NaN.
 */
module Form {
  import opened Wrappers
  import opened Operations

  /** The result of parseFloat, in cents. */
  datatype Number = NaN | Num(cents: int)

  /** JavaScript truthiness of a number: neither 0 nor NaN. */
  predicate NumberTruthy(n: Number) {
    n.Num? && n.cents != 0
  }

  /**
   * A JSON request body. A field that the object literal does not spread in
   * is None; `kind` is the `type` field.
   */
  datatype Payload = Payload(kind: Option<string>, montant: Number, source: Option<string>, categorie: Option<string>)

  /** Why the new-operation form sent nothing ("Veuillez remplir tous les champs"). */
  datatype FormError = MissingField

  /** The description goes under `source` for an income and under `categorie` for anything else. */
  function DescribedAs(kind: string, text: string): (Option<string>, Option<string>) {
    if kind == "revenu" then (Some(text), None) else (None, Some(text))
  }

  /**
   * ajouterOperation: `montant` is parseFloat of the amount field. Nothing is
   * sent when the amount is 0 or NaN or the description is empty; otherwise
   * the body carries the type, the parsed amount and the description.
   */
  function NewOperationPayload(kind: string, montantText: string, description: string, parseFloat: string -> Number)
    : (r: Result<Payload, FormError>)
    ensures r.Err? <==> !NumberTruthy(parseFloat(montantText)) || description == ""
    ensures r.Ok? ==> r.value.kind == Some(kind) && r.value.montant == parseFloat(montantText)
    ensures r.Ok? && kind == "revenu" ==> r.value.source == Some(description) && r.value.categorie == None
    ensures r.Ok? && kind != "revenu" ==> r.value.source == None && r.value.categorie == Some(description)
  {
    var montant := parseFloat(montantText);
    if !NumberTruthy(montant) || description == "" then
      Err(MissingField)
    else
      var (source, categorie) := DescribedAs(kind, description);
      Ok(Payload(Some(kind), montant, source, categorie))
  }

  /**
   * modifierOperation: `answer` is what the amount prompt returned (None when
   * it was cancelled) and `champ` what the second prompt returned. Nothing is
   * sent when `champ` is null or empty. The amount is parseFloat of the
   * answer, or 0 when the answer is null or empty; it is not checked, and the
   * body has no `type`.
   */
  function UpdatePayload(kind: string, answer: Option<string>, champ: Option<string>, parseFloat: string -> Number)
    : (r: Option<Payload>)
    ensures r.Some? <==> Truthy(champ)
    ensures r.Some? ==> r.value.kind.None?
    ensures r.Some? ==> r.value.montant == if Truthy(answer) then parseFloat(answer.value) else Num(0)
    ensures r.Some? && kind == "revenu" ==> r.value.source == champ && r.value.categorie == None
    ensures r.Some? && kind != "revenu" ==> r.value.source == None && r.value.categorie == champ
  {
    var montant := if Truthy(answer) then parseFloat(answer.value) else Num(0);
    if !Truthy(champ) then
      None
    else
      var (source, categorie) := DescribedAs(kind, champ.value);
      Some(Payload(None, montant, source, categorie))
  }

  /** A body the creation form sends always has a non-zero amount and a non-empty description. */
  lemma NewOperationChecked(kind: string, montantText: string, description: string, parseFloat: string -> Number)
    requires NewOperationPayload(kind, montantText, description, parseFloat).Ok?
    ensures var p := NewOperationPayload(kind, montantText, description, parseFloat).value;
      && NumberTruthy(p.montant)
      && (p.source == Some(description) || p.categorie == Some(description))
      && description != ""
  {
  }

  /**
   * An expense created through the form, once stored with its description as
   * `categorie`, is counted in the pie chart under that description.
   */
  lemma NewExpenseCategorised(kind: string, montantText: string, description: string, parseFloat: string -> Number,
                              stored: Operation)
    requires kind != "revenu"
    requires NewOperationPayload(kind, montantText, description, parseFloat).Ok?
    requires stored.categorie == NewOperationPayload(kind, montantText, description, parseFloat).value.categorie
    ensures CategoryOf(stored) == Some(description)
  {
  }

  /**
   * The edit prompts skip the amount check of the creation form: a cancelled
   * or empty amount prompt sends 0, and an amount that does not parse sends
   * NaN (which JSON.stringify writes as null), while the creation form
   * refuses both.
   */
  lemma UpdateSkipsAmountCheck(kind: string, champ: string, text: string, parseFloat: string -> Number)
    requires champ != "" && parseFloat(text) == NaN
    ensures UpdatePayload(kind, None, Some(champ), parseFloat).value.montant == Num(0)
    ensures UpdatePayload(kind, Some(""), Some(champ), parseFloat).value.montant == Num(0)
    ensures text != "" ==> UpdatePayload(kind, Some(text), Some(champ), parseFloat).value.montant == NaN
    ensures NewOperationPayload(kind, text, champ, parseFloat).Err?
    ensures forall z :: parseFloat(z) == Num(0) ==> NewOperationPayload(kind, z, champ, parseFloat).Err?
  {
  }
}
