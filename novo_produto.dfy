/** The product creation form (`NovoProdutoForm`): the field-update rules, the
    client-side validator, the create payload, the remapping of a server's
    field errors onto the form, and the two halves of a submission (up to the
    awaited `createProduto` call and after it). */
module NovoProduto {
  import opened Js
  import opened Api

  // ---------------------------------------------------------------------------
  // Form state

  /** The five inputs of the form. */
  datatype FieldName = Nome | Descricao | Valor | CategoriaId | LojasId {
    /** The property name the page uses for the field. */
    function Key(): string {
      match this
      case Nome => "nome"
      case Descricao => "descricao"
      case Valor => "valor"
      case CategoriaId => "categoriaId"
      case LojasId => "lojasId"
    }
  }

  const FieldKeys: set<string> := {"nome", "descricao", "valor", "categoriaId", "lojasId"}

  /** `FormData`: `valor` and `categoriaId` are `number | ""`; `valor` is in cents. */
  datatype FormData = FormData(
    nome: string,
    descricao: string,
    valor: Slot,
    categoriaId: Slot,
    lojasId: seq<int>)

  const EmptyForm: FormData := FormData("", "", Blank, Blank, [])

  /** `FormErrors`, a JavaScript object from field name to message or null.
      A map, because a server error may name a field the form does not have. */
  type FormErrors = map<string, Option<string>>

  const NoErrors: FormErrors :=
    map["nome" := None, "descricao" := None, "valor" := None, "categoriaId" := None, "lojasId" := None]

  /** Merging entries over the cleared errors keeps an entry for every field. */
  lemma NoErrorsMerge(m: FormErrors)
    ensures FieldKeys <= (NoErrors + m).Keys
    ensures m == map[] ==> NoErrors + m == NoErrors
  {
  }

  // ---------------------------------------------------------------------------
  // Messages

  const NomeObrigatorio := "O campo Nome é obrigatório"
  const NomeTamanho := "O campo Nome deve ter entre 3 e 100 caracteres"
  const DescricaoObrigatoria := "O campo Descrição é obrigatório"
  const DescricaoMinimo := "O campo Descrição deve ter no mínimo 10 caracteres"
  const ValorObrigatorio := "O campo Valor é obrigatório e deve ser um número."
  const ValorPositivo := "O campo Valor deve ser um número positivo maior que zero."
  const CategoriaObrigatoria := "Selecione uma Categoria"
  const LojasObrigatorias := "Selecione pelo menos uma Loja"
  const CadastroSucesso := "Produto cadastrado com sucesso!"
  const CadastroFalhou := "Erro ao cadastrar o Produto. Tente novamente."

  // ---------------------------------------------------------------------------
  // Validation

  /** The name is required and, trimmed, between 3 and 100 characters long. */
  function NomeRule(nome: string): Option<string> {
    var t := Trim(nome);
    if |t| == 0 then Some(NomeObrigatorio)
    else if |t| < 3 || |t| > 100 then Some(NomeTamanho)
    else None
  }

  /** The description is required and, trimmed, at least 10 characters long;
      there is no upper bound. */
  function DescricaoRule(descricao: string): Option<string> {
    var t := Trim(descricao);
    if |t| == 0 then Some(DescricaoObrigatoria)
    else if |t| < 10 then Some(DescricaoMinimo)
    else None
  }

  /** `Number(valor)` as the validator sees it: the empty sentinel is tested
      first, then NaN, then the sign. */
  function ValorRule(valor: Slot): Option<string> {
    if valor.Blank? || valor.num.NaN? then Some(ValorObrigatorio)
    else if valor.num.n <= 0 then Some(ValorPositivo)
    else None
  }

  /** The name check: "obrigatório" for a name that is whitespace only, the
      length message for a trimmed length outside [3, 100], nothing otherwise. */
  lemma NomeRuleCases(nome: string)
    ensures NomeRule(nome) == None <==> 3 <= |Trim(nome)| <= 100
    ensures NomeRule(nome) == Some(NomeObrigatorio) <==> AllWhitespace(nome)
    ensures NomeRule(nome) == Some(NomeTamanho) <==> !AllWhitespace(nome) && !(3 <= |Trim(nome)| <= 100)
  {
    TrimEmptyIff(nome);
  }

  /** The description check: "obrigatório" for whitespace only, the minimum
      message for a trimmed length below 10, nothing otherwise. */
  lemma DescricaoRuleCases(descricao: string)
    ensures DescricaoRule(descricao) == None <==> |Trim(descricao)| >= 10
    ensures DescricaoRule(descricao) == Some(DescricaoObrigatoria) <==> AllWhitespace(descricao)
    ensures DescricaoRule(descricao) == Some(DescricaoMinimo) <==> !AllWhitespace(descricao) && |Trim(descricao)| < 10
  {
    TrimEmptyIff(descricao);
  }

  /** The price check: "obrigatório" for the empty sentinel or NaN, the
      positive message for an amount of at most zero, and any positive amount
      passes. */
  lemma ValorRuleCases(valor: Slot)
    ensures ValorRule(valor) == None <==> valor.Filled? && valor.num.Val? && valor.num.n > 0
    ensures ValorRule(valor) == Some(ValorObrigatorio) <==> valor == Blank || valor == Filled(NaN)
    ensures ValorRule(valor) == Some(ValorPositivo) <==> valor.Filled? && valor.num.Val? && valor.num.n <= 0
  {
  }

  function CategoriaRule(categoriaId: Slot): Option<string> {
    if categoriaId == Blank then Some(CategoriaObrigatoria) else None
  }

  function LojasRule(lojasId: seq<int>): Option<string> {
    if |lojasId| == 0 then Some(LojasObrigatorias) else None
  }

  /** The verdict of the rule for one field. */
  function Rule(f: FieldName, d: FormData): Option<string> {
    match f
    case Nome => NomeRule(d.nome)
    case Descricao => DescricaoRule(d.descricao)
    case Valor => ValorRule(d.valor)
    case CategoriaId => CategoriaRule(d.categoriaId)
    case LojasId => LojasRule(d.lojasId)
  }

  function Put(m: FormErrors, key: string, verdict: Option<string>): FormErrors {
    if verdict.Some? then m[key := verdict] else m
  }

  /** The fields in the order the page checks them. */
  const AllFields: seq<FieldName> := [Nome, Descricao, Valor, CategoriaId, LojasId]

  /** The error entries after checking `fields` in order. */
  function ValidateFields(fields: seq<FieldName>, d: FormData): FormErrors {
    if fields == [] then map[]
    else Put(ValidateFields(fields[..|fields| - 1], d), fields[|fields| - 1].Key(), Rule(fields[|fields| - 1], d))
  }

  /** `validationErrors`: the `Partial<FormErrors>` with one entry per violated
      rule. Every rule runs; none stops the others. */
  function Validate(d: FormData): FormErrors {
    ValidateFields(AllFields, d)
  }

  /** Distinct fields have distinct property names. */
  lemma KeyInjective(f: FieldName, g: FieldName)
    requires f != g
    ensures f.Key() != g.Key()
  {
    assert |f.Key()| != |g.Key()|;
  }

  predicate NoDuplicates(fields: seq<FieldName>) {
    forall i, j :: 0 <= i < j < |fields| ==> fields[i] != fields[j]
  }

  /** Checking distinct fields in sequence leaves exactly the entries of the
      fields whose rule fails, each with that rule's message. */
  lemma {:induction false} ValidateFieldsEntry(fields: seq<FieldName>, d: FormData, f: FieldName)
    requires NoDuplicates(fields)
    ensures f.Key() in ValidateFields(fields, d) <==> f in fields && Rule(f, d).Some?
    ensures f.Key() in ValidateFields(fields, d) ==> ValidateFields(fields, d)[f.Key()] == Rule(f, d)
  {
    if fields != [] {
      var front, last := fields[..|fields| - 1], fields[|fields| - 1];
      assert NoDuplicates(front);
      ValidateFieldsEntry(front, d, f);
      if f != last {
        KeyInjective(f, last);
        assert f in fields <==> f in front;
      } else {
        assert f !in front;
      }
    }
  }

  /** Only the form's own property names ever get an entry. */
  lemma {:induction false} ValidateFieldsKeys(fields: seq<FieldName>, d: FormData)
    ensures forall k :: k in ValidateFields(fields, d) ==> exists f :: f in fields && f.Key() == k
  {
    if fields != [] {
      ValidateFieldsKeys(fields[..|fields| - 1], d);
      forall k | k in ValidateFields(fields, d) ensures exists f :: f in fields && f.Key() == k {
        if k != fields[|fields| - 1].Key() {
          assert k in ValidateFields(fields[..|fields| - 1], d);
          var f :| f in fields[..|fields| - 1] && f.Key() == k;
          assert f in fields;
        }
      }
    }
  }

  /** The errors are exactly the union of the violations: a field has an entry
      iff its own rule fails, the entry is that rule's message, and no other
      name gets an entry. */
  lemma ValidateCollectsEveryViolation(d: FormData, f: FieldName)
    ensures f.Key() in Validate(d) <==> Rule(f, d).Some?
    ensures f.Key() in Validate(d) ==> Validate(d)[f.Key()] == Rule(f, d)
    ensures Validate(d).Keys <= FieldKeys
  {
    ValidateFieldsEntry(AllFields, d, f);
    ValidateFieldsKeys(AllFields, d);
  }

  /** What a form must hold for the validator to let it through. */
  predicate Accepts(d: FormData) {
    && 3 <= |Trim(d.nome)| <= 100
    && |Trim(d.descricao)| >= 10
    && d.valor.Filled? && d.valor.num.Val? && d.valor.num.n > 0
    && d.categoriaId.Filled?
    && |d.lojasId| > 0
  }

  /** No validation error iff no rule fails. */
  lemma ValidateEmptyIff(d: FormData)
    ensures Validate(d) != map[] <==>
      || NomeRule(d.nome).Some? || DescricaoRule(d.descricao).Some? || ValorRule(d.valor).Some?
      || CategoriaRule(d.categoriaId).Some? || LojasRule(d.lojasId).Some?
  {
    ValidateCollectsEveryViolation(d, Nome);
    ValidateCollectsEveryViolation(d, Descricao);
    ValidateCollectsEveryViolation(d, Valor);
    ValidateCollectsEveryViolation(d, CategoriaId);
    ValidateCollectsEveryViolation(d, LojasId);
    if Validate(d) != map[] {
      var k :| k in Validate(d);
      assert k in FieldKeys;
    }
  }

  /** No validation error iff every rule is met. */
  lemma ValidateCleanIff(d: FormData)
    ensures Validate(d) == map[] <==> Accepts(d)
  {
    NomeRuleCases(d.nome);
    DescricaoRuleCases(d.descricao);
    ValorRuleCases(d.valor);
    ValidateEmptyIff(d);
  }

  /** The verdict depends on the form only through the five rules. */
  lemma {:induction false} ValidateFieldsSameRules(fields: seq<FieldName>, d: FormData, e: FormData)
    requires forall f :: f in fields ==> Rule(f, d) == Rule(f, e)
    ensures ValidateFields(fields, d) == ValidateFields(fields, e)
  {
    if fields != [] {
      ValidateFieldsSameRules(fields[..|fields| - 1], d, e);
    }
  }

  /** Trimming the text fields on blur never changes the validator's verdict. */
  lemma ValidateIgnoresTrim(d: FormData)
    ensures Validate(d.(nome := Trim(d.nome))) == Validate(d)
    ensures Validate(d.(descricao := Trim(d.descricao))) == Validate(d)
  {
    TrimIdempotent(d.nome);
    TrimIdempotent(d.descricao);
    ValidateFieldsSameRules(AllFields, d.(nome := Trim(d.nome)), d);
    ValidateFieldsSameRules(AllFields, d.(descricao := Trim(d.descricao)), d);
  }

  /** The validator written out field by field, in the page's order. */
  lemma ValidateUnfolded(d: FormData)
    ensures Validate(d) ==
      Put(Put(Put(Put(Put(map[], "nome", NomeRule(d.nome)),
        "descricao", DescricaoRule(d.descricao)), "valor", ValorRule(d.valor)),
        "categoriaId", CategoriaRule(d.categoriaId)), "lojasId", LojasRule(d.lojasId))
  {
    var f4, f3, f2, f1 := AllFields[..4], AllFields[..3], AllFields[..2], AllFields[..1];
    assert f4[..3] == f3 && f3[..2] == f2 && f2[..1] == f1 && f1[..0] == [];
    assert ValidateFields(f1, d) == Put(map[], "nome", NomeRule(d.nome));
    assert ValidateFields(f2, d) == Put(ValidateFields(f1, d), "descricao", DescricaoRule(d.descricao));
    assert ValidateFields(f3, d) == Put(ValidateFields(f2, d), "valor", ValorRule(d.valor));
    assert ValidateFields(f4, d) == Put(ValidateFields(f3, d), "categoriaId", CategoriaRule(d.categoriaId));
    assert ValidateFields(AllFields, d) == Put(ValidateFields(f4, d), "lojasId", LojasRule(d.lojasId));
  }

  /** The validation block of `handleSubmit`, step by step: each failed rule
      stores its message and raises `hasFrontendError`. */
  method CollectValidationErrors(d: FormData) returns (validationErrors: FormErrors, hasFrontendError: bool)
    ensures validationErrors == Validate(d)
    ensures hasFrontendError <==> !Accepts(d)
  {
    validationErrors := map[];
    hasFrontendError := false;
    var nomeTrim := Trim(d.nome);
    var descricaoTrim := Trim(d.descricao);

    if |nomeTrim| == 0 {
      validationErrors := validationErrors["nome" := Some(NomeObrigatorio)];
      hasFrontendError := true;
    } else if |nomeTrim| < 3 || |nomeTrim| > 100 {
      validationErrors := validationErrors["nome" := Some(NomeTamanho)];
      hasFrontendError := true;
    }
    ghost var m1 := Put(map[], "nome", NomeRule(d.nome));
    assert validationErrors == m1;
    assert hasFrontendError == NomeRule(d.nome).Some?;

    if |descricaoTrim| == 0 {
      validationErrors := validationErrors["descricao" := Some(DescricaoObrigatoria)];
      hasFrontendError := true;
    } else if |descricaoTrim| < 10 {
      validationErrors := validationErrors["descricao" := Some(DescricaoMinimo)];
      hasFrontendError := true;
    }
    ghost var m2 := Put(m1, "descricao", DescricaoRule(d.descricao));
    assert validationErrors == m2;
    assert hasFrontendError == (NomeRule(d.nome).Some? || DescricaoRule(d.descricao).Some?);

    if d.valor.Blank? || d.valor.num.NaN? {
      validationErrors := validationErrors["valor" := Some(ValorObrigatorio)];
      hasFrontendError := true;
    } else if d.valor.num.n <= 0 {
      validationErrors := validationErrors["valor" := Some(ValorPositivo)];
      hasFrontendError := true;
    }
    ghost var m3 := Put(m2, "valor", ValorRule(d.valor));
    assert validationErrors == m3;

    if d.categoriaId == Blank {
      validationErrors := validationErrors["categoriaId" := Some(CategoriaObrigatoria)];
      hasFrontendError := true;
    }
    ghost var m4 := Put(m3, "categoriaId", CategoriaRule(d.categoriaId));
    assert validationErrors == m4;

    if |d.lojasId| == 0 {
      validationErrors := validationErrors["lojasId" := Some(LojasObrigatorias)];
      hasFrontendError := true;
    }
    ghost var m5 := Put(m4, "lojasId", LojasRule(d.lojasId));
    assert validationErrors == m5;
    ValidateUnfolded(d);
    NomeRuleCases(d.nome);
    DescricaoRuleCases(d.descricao);
  }

  // ---------------------------------------------------------------------------
  // The create payload

  /** `createDTO`, built only from a form the validator accepted: trimmed texts,
      the price as a number, the category as `{id}` and the stores as a list of
      `{id}` in the order they were selected. */
  function BuildPayload(d: FormData): (p: ProdutoCreateDTO)
    requires Accepts(d)
    ensures p.nome == Trim(d.nome) && p.descricao == Trim(d.descricao)
    ensures d.valor == Filled(Val(p.valor))
    ensures d.categoriaId == Filled(p.categoria.id)
    ensures |p.lojas| == |d.lojasId|
    ensures forall i :: 0 <= i < |d.lojasId| ==> p.lojas[i] == IdRef(Val(d.lojasId[i]))
  {
    ProdutoCreateDTO(
      Trim(d.nome),
      Trim(d.descricao),
      d.valor.num.n,
      IdRef(d.categoriaId.num),
      seq(|d.lojasId|, i requires 0 <= i < |d.lojasId| => IdRef(Val(d.lojasId[i]))))
  }

  /** What every payload the form sends satisfies. */
  predicate WellFormedPayload(p: ProdutoCreateDTO) {
    && Trim(p.nome) == p.nome && 3 <= |p.nome| <= 100
    && Trim(p.descricao) == p.descricao && |p.descricao| >= 10
    && p.valor > 0
    && |p.lojas| > 0
    && forall i :: 0 <= i < |p.lojas| ==> p.lojas[i].id.Val?
  }

  /** A payload is never sent with a non-positive price, a missing store or an
      untrimmed or out-of-range text. */
  lemma PayloadWellFormed(d: FormData)
    requires Accepts(d)
    ensures WellFormedPayload(BuildPayload(d))
  {
    TrimIdempotent(d.nome);
    TrimIdempotent(d.descricao);
  }

  /** The form that a payload was built from, up to surrounding whitespace. */
  function FormOf(p: ProdutoCreateDTO): (d: FormData)
    ensures |d.lojasId| == |p.lojas|
  {
    FormData(p.nome, p.descricao, Filled(Val(p.valor)), Filled(p.categoria.id),
             seq(|p.lojas|, i requires 0 <= i < |p.lojas| => if p.lojas[i].id.Val? then p.lojas[i].id.n else 0))
  }

  /** Every well-formed payload is what the form sends for some accepted input. */
  lemma PayloadRoundTrip(p: ProdutoCreateDTO)
    requires WellFormedPayload(p)
    ensures Accepts(FormOf(p)) && Validate(FormOf(p)) == map[]
    ensures BuildPayload(FormOf(p)) == p
  {
    ValidateCleanIff(FormOf(p));
    var q := BuildPayload(FormOf(p));
    assert q.lojas == p.lojas;
  }

  /** Building the payload loses nothing but the whitespace around the texts. */
  lemma PayloadKeepsForm(d: FormData)
    requires Accepts(d)
    ensures FormOf(BuildPayload(d)) == d.(nome := Trim(d.nome), descricao := Trim(d.descricao))
  {
    var e := FormOf(BuildPayload(d));
    assert e.lojasId == d.lojasId;
  }

  // ---------------------------------------------------------------------------
  // Server errors

  /** The client field a server field name refers to: anything mentioning
      `categoria` is the category select, else anything mentioning `lojas` is
      the stores select, else the name is kept. */
  function ClientField(field: string): string {
    if Includes(field, "categoria") then "categoriaId"
    else if Includes(field, "lojas") then "lojasId"
    else field
  }

  /** A string none of whose possible starting characters is the first one of
      `sub` does not include `sub`. */
  lemma NotIncludesByFirst(s: string, sub: string)
    requires |sub| > 0
    requires forall i :: 0 <= i <= |s| - |sub| ==> s[i] != sub[0]
    ensures !Includes(s, sub)
  {
    forall i | 0 <= i <= |s| - |sub| ensures !OccursAt(s, sub, i) {
      assert s[i..i + |sub|][0] == s[i];
    }
  }

  /** The form's own field names are left alone by the remapping. */
  lemma ClientFieldKeepsFormKeys(f: FieldName)
    ensures ClientField(f.Key()) == f.Key()
  {
    match f
    case Nome =>
    case Descricao =>
      NotIncludesByFirst("descricao", "categoria");
      NotIncludesByFirst("descricao", "lojas");
    case Valor =>
      NotIncludesByFirst("valor", "lojas");
    case CategoriaId =>
      assert OccursAt("categoriaId", "categoria", 0);
    case LojasId =>
      assert OccursAt("lojasId", "lojas", 0);
  }

  /** Remapping a remapped name changes nothing. */
  lemma ClientFieldIdempotent(field: string)
    ensures ClientField(ClientField(field)) == ClientField(field)
  {
    if Includes(field, "categoria") {
      ClientFieldKeepsFormKeys(CategoriaId);
    } else if Includes(field, "lojas") {
      ClientFieldKeepsFormKeys(LojasId);
    }
  }

  /** `newErrors` after the `forEach` over the server's field errors: each
      entry, in order, sets its client field to its message. */
  function RemapAll(items: seq<FieldError>): FormErrors {
    if items == [] then map[]
    else RemapAll(items[..|items| - 1])[ClientField(items[|items| - 1].field) := items[|items| - 1].message]
  }

  /** A field has an entry iff some server error maps onto it. */
  lemma {:induction false} RemapKeys(items: seq<FieldError>, k: string)
    ensures k in RemapAll(items) <==> exists j :: 0 <= j < |items| && ClientField(items[j].field) == k
  {
    if items != [] {
      var front := items[..|items| - 1];
      RemapKeys(front, k);
      if k in RemapAll(front) {
        var j :| 0 <= j < |front| && ClientField(front[j].field) == k;
        assert items[j] == front[j];
      }
      if exists j :: 0 <= j < |items| && ClientField(items[j].field) == k {
        var j :| 0 <= j < |items| && ClientField(items[j].field) == k;
        if j < |front| {
          assert front[j] == items[j];
        }
      }
    }
  }

  /** The last server error that maps onto a field decides its message. */
  lemma {:induction false} RemapLastWins(items: seq<FieldError>, j: int)
    requires 0 <= j < |items|
    requires forall l :: j < l < |items| ==> ClientField(items[l].field) != ClientField(items[j].field)
    ensures ClientField(items[j].field) in RemapAll(items)
    ensures RemapAll(items)[ClientField(items[j].field)] == items[j].message
  {
    if j < |items| - 1 {
      var front := items[..|items| - 1];
      assert front[j] == items[j];
      forall l | j < l < |front| ensures ClientField(front[l].field) != ClientField(front[j].field) {
        assert front[l] == items[l];
      }
      RemapLastWins(front, j);
    }
  }

  /** The banner of a structured error: the `forEach` replaces the default with
      the body's `message` when there is one, but only if the list is non-empty. */
  function StructuredBanner(items: seq<FieldError>, message: Option<string>): string {
    if |items| > 0 then Or(message, CadastroFalhou) else CadastroFalhou
  }

  /** The `forEach` of the 422 branch: renames each field and records its
      message, and updates the banner text on every entry. */
  method CollectServerErrors(items: seq<FieldError>, message: Option<string>)
    returns (newErrors: FormErrors, msg: string)
    ensures newErrors == RemapAll(items)
    ensures msg == StructuredBanner(items, message)
  {
    newErrors := map[];
    msg := CadastroFalhou;
    for i := 0 to |items|
      invariant newErrors == RemapAll(items[..i])
      invariant msg == StructuredBanner(items[..i], message)
    {
      var fieldName := items[i].field;
      if Includes(fieldName, "categoria") {
        fieldName := "categoriaId";
      } else if Includes(fieldName, "lojas") {
        fieldName := "lojasId";
      }
      newErrors := newErrors[fieldName := items[i].message];
      msg := Or(message, msg);
      assert items[..i + 1][..i] == items[..i];
    }
    assert items[..|items|] == items;
  }

  /** The body is a 422 carrying an array `errors`. */
  predicate IsStructured(data: ErrorData) {
    data.status == Some(422) && data.errors.Array?
  }

  /** The banner text `msg` set in the `catch` block. */
  function ProductBanner(f: Failure): string {
    match f
    case HttpError(Some(data)) =>
      if IsStructured(data) then StructuredBanner(data.errors.items, data.message)
      else Or(data.message, Or(data.error, CadastroFalhou))
    case HttpError(None) => CadastroFalhou
    case PlainError(message) => message
    case NotAnError => CadastroFalhou
  }

  /** The `newErrors` merged into the form's errors in the `catch` block. */
  function ServerFieldErrors(f: Failure): FormErrors {
    if f.HttpError? && f.data.Some? && IsStructured(f.data.value) then RemapAll(f.data.value.errors.items)
    else map[]
  }

  /** Field errors come only from a 422 whose `errors` array is non-empty, and
      then the banner is the body's `message` or the default. */
  lemma ServerFieldErrorsOnlyFromStructured(f: Failure)
    ensures ServerFieldErrors(f) != map[] <==>
            f.HttpError? && f.data.Some? && IsStructured(f.data.value) && |f.data.value.errors.items| > 0
    ensures ServerFieldErrors(f) != map[] ==> ProductBanner(f) == Or(f.data.value.message, CadastroFalhou)
  {
    if f.HttpError? && f.data.Some? && IsStructured(f.data.value) {
      var items := f.data.value.errors.items;
      if |items| > 0 {
        RemapKeys(items, ClientField(items[0].field));
      }
    }
  }

  /** Any other response body gives the banner `message || error || default`. */
  lemma UnstructuredBanner(data: ErrorData)
    requires !IsStructured(data)
    ensures ServerFieldErrors(HttpError(Some(data))) == map[]
    ensures Truthy(data.message) ==> ProductBanner(HttpError(Some(data))) == data.message.value
    ensures !Truthy(data.message) && Truthy(data.error) ==> ProductBanner(HttpError(Some(data))) == data.error.value
    ensures !Truthy(data.message) && !Truthy(data.error) ==> ProductBanner(HttpError(Some(data))) == CadastroFalhou
  {
  }

  /** A 422 with `{field: "categoria.id", message: "inválida"}` puts "inválida"
      on the category select. */
  lemma CategoriaIdErrorScenario(message: Option<string>)
    ensures var f := HttpError(Some(ErrorData(Some(422), message, None,
                                              Array([FieldError("categoria.id", Some("inválida"))]),
                                              NotArray(false))));
            ServerFieldErrors(f) == map["categoriaId" := Some("inválida")]
  {
    assert OccursAt("categoria.id", "categoria", 0);
  }

  // ---------------------------------------------------------------------------
  // Field-update rules

  /** The characters the price input keeps: `[\d,.]`. */
  predicate IsCurrencyChar(c: char) {
    '0' <= c <= '9' || c == ',' || c == '.'
  }

  /** `value.replace(/[^\d,.]/g, "")`. */
  function KeepCurrencyChars(s: string): (r: string)
    ensures |r| <= |s|
    ensures forall i :: 0 <= i < |r| ==> IsCurrencyChar(r[i])
  {
    if s == [] then []
    else (if IsCurrencyChar(s[0]) then [s[0]] else []) + KeepCurrencyChars(s[1..])
  }

  /** The filter keeps every digit and separator, as often as it occurs, and
      nothing else. */
  lemma {:induction false} KeepCurrencyCharsCounts(s: string, c: char)
    ensures multiset(KeepCurrencyChars(s))[c] == if IsCurrencyChar(c) then multiset(s)[c] else 0
  {
    if s != [] {
      KeepCurrencyCharsCounts(s[1..], c);
      assert s == [s[0]] + s[1..];
      assert multiset(s) == multiset([s[0]]) + multiset(s[1..]);
    }
  }

  /** The filter works character by character and keeps the order: filtering
      a concatenation is concatenating the filtered parts. With the one-character
      case of the definition this fixes the result completely. */
  lemma {:induction false} KeepCurrencyCharsAppend(a: string, b: string)
    ensures KeepCurrencyChars(a + b) == KeepCurrencyChars(a) + KeepCurrencyChars(b)
  {
    if a == [] {
      assert a + b == b;
    } else {
      assert (a + b)[0] == a[0] && (a + b)[1..] == a[1..] + b;
      KeepCurrencyCharsAppend(a[1..], b);
      assert KeepCurrencyChars(a + b) == (if IsCurrencyChar(a[0]) then [a[0]] else []) + KeepCurrencyChars(a[1..] + b);
    }
  }

  /** Text that is already filtered passes the filter unchanged. */
  lemma {:induction false} KeepCurrencyCharsFixed(s: string)
    requires forall i :: 0 <= i < |s| ==> IsCurrencyChar(s[i])
    ensures KeepCurrencyChars(s) == s
  {
    if s != [] {
      KeepCurrencyCharsFixed(s[1..]);
    }
  }

  /** A select's `value`: a single value or, for a multiple select, an array. */
  datatype EventValue = Single(text: string) | Many(texts: seq<string>)

  /** `Array.isArray(value) ? value : [value]`. */
  function Selected(v: EventValue): seq<string> {
    match v
    case Single(t) => [t]
    case Many(ts) => ts
  }

  /** `.map((id) => Number(id)).filter((id) => !isNaN(id))`, with `parse` standing for `Number`. */
  function ParseIds(texts: seq<string>, parse: string -> Num): (ids: seq<int>)
    ensures |ids| <= |texts|
    ensures forall x :: x in ids <==> exists j :: 0 <= j < |texts| && parse(texts[j]) == Val(x)
  {
    if texts == [] then []
    else
      var rest := ParseIds(texts[1..], parse);
      assert forall j :: 1 <= j < |texts| ==> texts[j] == texts[1..][j - 1];
      match parse(texts[0])
      case Val(n) => [n] + rest
      case NaN => rest
  }

  /** Every parsed value is kept, in the order of the selection: the ids of a
      concatenation are the ids of its parts, one after the other. */
  lemma {:induction false} ParseIdsAppend(a: seq<string>, b: seq<string>, parse: string -> Num)
    ensures ParseIds(a + b, parse) == ParseIds(a, parse) + ParseIds(b, parse)
  {
    if a == [] {
      assert a + b == b;
    } else {
      assert (a + b)[0] == a[0] && (a + b)[1..] == a[1..] + b;
      ParseIdsAppend(a[1..], b, parse);
      if parse(a[0]).Val? {
        var n := parse(a[0]).n;
        assert [n] + ParseIds(a[1..], parse) + ParseIds(b, parse)
            == [n] + (ParseIds(a[1..], parse) + ParseIds(b, parse));
      }
    }
  }

  /** When every selected value is a number, the ids are those numbers, in order. */
  lemma {:induction false} ParseIdsAllNumbers(texts: seq<string>, parse: string -> Num)
    requires forall j :: 0 <= j < |texts| ==> parse(texts[j]).Val?
    ensures |ParseIds(texts, parse)| == |texts|
    ensures forall j :: 0 <= j < |texts| ==> ParseIds(texts, parse)[j] == parse(texts[j]).n
  {
    if texts != [] {
      ParseIdsAllNumbers(texts[1..], parse);
    }
  }

  /** `handleBlurValor`'s result `(rawValor, valor)`: an empty buffer or an
      amount of zero commits the empty sentinel and clears the text; any other
      amount (NaN included) is committed and shown formatted. */
  function BlurValor(raw: string, unmask: string -> Num, format: Num -> string): (string, Slot) {
    if raw == "" then ("", Blank)
    else
      var numericValue := unmask(raw);
      var finalValue := if numericValue == Val(0) then Blank else Filled(numericValue);
      var stringFormatada := if finalValue != Blank then format(finalValue.num) else "";
      (stringFormatada, finalValue)
  }

  /** After a blur the committed price is never zero; it is empty exactly when
      the text was empty or unmasked to zero, and then the text is cleared. */
  lemma BlurCommits(raw: string, unmask: string -> Num, format: Num -> string)
    ensures BlurValor(raw, unmask, format).1 != Filled(Val(0))
    ensures BlurValor(raw, unmask, format).1 == Blank <==> raw == "" || unmask(raw) == Val(0)
    ensures BlurValor(raw, unmask, format).1 == Blank ==> BlurValor(raw, unmask, format).0 == ""
    ensures BlurValor(raw, unmask, format).1 != Blank ==>
              BlurValor(raw, unmask, format) == (format(unmask(raw)), Filled(unmask(raw)))
  {
  }

  /** When the formatter's text unmasks back to the amount it shows, blurring
      again changes nothing. */
  lemma BlurStable(raw: string, unmask: string -> Num, format: Num -> string)
    requires raw == "" || unmask(raw) == Val(0) ||
             (format(unmask(raw)) != "" && unmask(format(unmask(raw))) == unmask(raw))
    ensures var (text, valor) := BlurValor(raw, unmask, format);
            BlurValor(text, unmask, format) == (text, valor)
  {
  }

  /** A price typed as zero is reported as missing, not as non-positive. */
  lemma ZeroPriceReportedAsMissing(d: FormData, raw: string, unmask: string -> Num, format: Num -> string)
    requires raw != "" && unmask(raw) == Val(0)
    ensures var e := d.(valor := BlurValor(raw, unmask, format).1);
            "valor" in Validate(e) && Validate(e)["valor"] == Some(ValorObrigatorio)
  {
    ValidateCollectsEveryViolation(d.(valor := BlurValor(raw, unmask, format).1), Valor);
  }

  // ---------------------------------------------------------------------------
  // The page's state and its handlers

  class NovoProdutoForm {
    var formData: FormData
    var formErrors: FormErrors
    var rawValor: string
    var isSubmitting: bool
    var error: Option<string>
    var success: Option<string>
    /** The `setTimeout` that navigates back to the product list has been started. */
    var navigationScheduled: bool
    /** The payload of the `createProduto` call being awaited, if any. */
    ghost var inFlight: Option<ProdutoCreateDTO>

    ghost predicate Valid()
      reads this
    {
      && FieldKeys <= formErrors.Keys
      && (isSubmitting <==> inFlight.Some?)
      && (inFlight.Some? ==> WellFormedPayload(inFlight.value))
    }

    constructor ()
      ensures Valid()
      ensures formData == EmptyForm && formErrors == NoErrors && rawValor == ""
      ensures !isSubmitting && error == None && success == None && !navigationScheduled
    {
      formData := EmptyForm;
      formErrors := NoErrors;
      rawValor := "";
      isSubmitting := false;
      error := None;
      success := None;
      navigationScheduled := false;
      inFlight := None;
    }

    /** `handleChange`. Only the stores select delivers an array. */
    method HandleChange(name: FieldName, value: EventValue, parse: string -> Num)
      requires Valid()
      requires name != LojasId ==> value.Single?
      modifies this`formData, this`rawValor
      ensures Valid()
      ensures name == Valor ==> rawValor == KeepCurrencyChars(value.text) && formData == old(formData)
      ensures name != Valor ==> rawValor == old(rawValor)
      ensures name == Nome ==> formData == old(formData).(nome := value.text)
      ensures name == Descricao ==> formData == old(formData).(descricao := value.text)
      ensures name == CategoriaId ==>
                formData == old(formData).(categoriaId := if value.text == "" then Blank else Filled(parse(value.text)))
      ensures name == LojasId ==> formData == old(formData).(lojasId := ParseIds(Selected(value), parse))
    {
      if name == Valor {
        rawValor := KeepCurrencyChars(value.text);
        return;
      } else if name == CategoriaId {
        var selectValue := if value.text == "" then Blank else Filled(parse(value.text));
        formData := formData.(categoriaId := selectValue);
      } else if name == LojasId {
        var newLojasId := ParseIds(Selected(value), parse);
        formData := formData.(lojasId := newLojasId);
      } else if name == Nome {
        formData := formData.(nome := value.text);
      } else {
        formData := formData.(descricao := value.text);
      }
    }

    /** `handleBlurValor`, with `unmask` and `format` standing for
        `unmaskCurrency` and `formatToBRL`. */
    method HandleBlurValor(unmask: string -> Num, format: Num -> string)
      requires Valid()
      modifies this`formData, this`rawValor
      ensures Valid()
      ensures (rawValor, formData.valor) == BlurValor(old(rawValor), unmask, format)
      ensures formData == old(formData).(valor := formData.valor)
    {
      var valorDigitado := rawValor;
      if valorDigitado == "" {
        rawValor := "";
        formData := formData.(valor := Blank);
        return;
      }
      var numericValue := unmask(valorDigitado);
      var finalValue := if numericValue == Val(0) then Blank else Filled(numericValue);
      var stringFormatada: string;
      if finalValue != Blank {
        stringFormatada := format(finalValue.num);
      } else {
        stringFormatada := "";
      }
      rawValor := stringFormatada;
      formData := formData.(valor := finalValue);
    }

    /** The `onBlur` of the name and description inputs: store the trimmed text. */
    method HandleBlurText(name: FieldName)
      requires Valid()
      requires name == Nome || name == Descricao
      modifies this`formData
      ensures Valid()
      ensures name == Nome ==> formData == old(formData).(nome := Trim(old(formData).nome))
      ensures name == Descricao ==> formData == old(formData).(descricao := Trim(old(formData).descricao))
      ensures Validate(formData) == Validate(old(formData))
    {
      ValidateIgnoresTrim(formData);
      if name == Nome {
        var nomeTrimado := Trim(formData.nome);
        if formData.nome != nomeTrimado {
          formData := formData.(nome := nomeTrimado);
        }
      } else {
        var descricaoTrimado := Trim(formData.descricao);
        if formData.descricao != descricaoTrimado {
          formData := formData.(descricao := descricaoTrimado);
        }
      }
    }

    /** `handleSubmit` up to the awaited `createProduto` call. Banners and field
        errors are cleared and `isSubmitting` raised; a form the validator
        rejects gets its errors and no request, and `isSubmitting` drops again;
        otherwise the payload is sent and the form stays submitting. The submit
        button is disabled while submitting, so this never starts a second call. */
    method BeginSubmit() returns (request: Option<ProdutoCreateDTO>)
      requires Valid() && !isSubmitting
      modifies this`error, this`success, this`isSubmitting, this`formErrors, this`inFlight
      ensures Valid()
      ensures error == None && success == None
      ensures formErrors == NoErrors + Validate(formData)
      ensures request.Some? <==> Accepts(formData)
      ensures request.Some? ==> request.value == BuildPayload(formData)
      ensures isSubmitting <==> request.Some?
      ensures inFlight == request
      ensures request.Some? ==> WellFormedPayload(request.value)
    {
      error := None;
      success := None;
      isSubmitting := true;
      formErrors := NoErrors;

      var dataToSend := formData;
      NoErrorsMerge(Validate(dataToSend));
      var validationErrors, hasFrontendError := CollectValidationErrors(dataToSend);
      if hasFrontendError {
        formErrors := formErrors + validationErrors;
        isSubmitting := false;
        request := None;
        inFlight := None;
        return;
      }

      ValidateCleanIff(dataToSend);
      var createDTO := BuildPayload(dataToSend);
      PayloadWellFormed(dataToSend);
      request := Some(createDTO);
      inFlight := request;
    }

    /** `handleSubmit` after the awaited call. Success shows the banner, empties
        the form and the price text and schedules the navigation; a failure sets
        the banner and merges the server's field errors over the current ones.
        Either way `isSubmitting` drops (`finally`). */
    method CompleteSubmit(outcome: Outcome)
      requires Valid() && isSubmitting
      modifies this
      ensures Valid()
      ensures !isSubmitting && inFlight == None
      ensures outcome.Ok? ==>
                && success == Some(CadastroSucesso) && error == old(error)
                && formData == EmptyForm && rawValor == ""
                && formErrors == old(formErrors)
                && navigationScheduled
      ensures outcome.Err? ==>
                && error == Some(ProductBanner(outcome.failure)) && success == old(success)
                && formData == old(formData) && rawValor == old(rawValor)
                && formErrors == old(formErrors) + ServerFieldErrors(outcome.failure)
                && navigationScheduled == old(navigationScheduled)
    {
      match outcome {
        case Ok =>
          success := Some(CadastroSucesso);
          formData := EmptyForm;
          rawValor := "";
          navigationScheduled := true;
        case Err(f) =>
          var msg := CadastroFalhou;
          if f.HttpError? {
            if f.data.Some? {
              var errorData := f.data.value;
              if errorData.status == Some(422) && errorData.errors.Array? {
                var newErrors, m := CollectServerErrors(errorData.errors.items, errorData.message);
                msg := m;
                formErrors := formErrors + newErrors;
              } else {
                msg := Or(errorData.message, Or(errorData.error, msg));
              }
            }
          } else if f.PlainError? {
            msg := f.message;
          }
          error := Some(msg);
      }
      isSubmitting := false;
      inFlight := None;
    }
  }

  /** A name of two letters blocks the submission with the length message. */
  method ShortNameScenario(parse: string -> Num) returns (request: Option<ProdutoCreateDTO>, nomeError: Option<string>)
    ensures request == None && nomeError == Some(NomeTamanho)
  {
    var form := new NovoProdutoForm();
    form.HandleChange(Nome, Single("AB"), parse);
    assert form.formData.nome == "AB";
    TrimFixed("AB");
    ValidateCollectsEveryViolation(form.formData, Nome);
    request := form.BeginSubmit();
    nomeError := form.formErrors["nome"];
  }
}
