/** The category creation form (`FormularioNovaCategoria`): one text input, a
    save call without any client-side validation, and the choice of the error
    banner after a failed save. */
module NovaCategoria {
  import opened Js
  import opened Api

  const SaveSuccess := "Categoria salva com sucesso"
  const SaveDefault := "Erro ao salvar categoria. Tente novamente"
  /** The two halves of the structured error banner, spelling included. */
  const InvalidPrefix := "Dadps Invalidos: "
  const InvalidSuffix := ". Tente novamente"

  /** The body of the `save` call: the form data itself. */
  datatype CategoriaDTO = CategoriaDTO(nome: string)

  // ---------------------------------------------------------------------------
  // The error banner

  /** `erros.map(e => e.message)`, as `join` renders it: a missing message
      becomes the empty string. */
  function Messages(items: seq<FieldError>): seq<string> {
    if items == [] then []
    else Messages(items[..|items| - 1]) + [MessageText(items[|items| - 1])]
  }

  function MessageText(e: FieldError): string {
    if e.message.Some? then e.message.value else ""
  }

  /** One rendered message per element, in the order of the array. */
  lemma {:induction false} MessagesSpec(items: seq<FieldError>)
    ensures |Messages(items)| == |items|
    ensures forall i :: 0 <= i < |items| ==> Messages(items)[i] == MessageText(items[i])
  {
    if items != [] {
      MessagesSpec(items[..|items| - 1]);
    }
  }

  /** The structured banner: every message of `erros`, separated by ", ". */
  function ListBanner(items: seq<FieldError>): string {
    InvalidPrefix + Join(Messages(items), ", ") + InvalidSuffix
  }

  /** The catch handler of `handleSubmi`. The structured branch is taken when
      `erros` is truthy and `errors` is an array, and it reads `erros`; when
      `erros` is then not an array, `.map` throws inside the handler, no banner
      is set and the result is `None`. Otherwise the body's `error` or the
      default text is shown. A failure that is not an HTTP error with a body
      always gives the default text. */
  function CategoryBanner(f: Failure): Option<string> {
    if f.HttpError? && f.data.Some? then
      var data := f.data.value;
      if data.erros.Truthy() && data.errors.Array? then
        if data.erros.Array? then Some(ListBanner(data.erros.items)) else None
      else Some(Or(data.error, SaveDefault))
    else Some(SaveDefault)
  }

  /** Anything but an HTTP error with a body gets the default text; a plain
      `Error`'s own message is never shown. */
  lemma DefaultUnlessHttpBody(f: Failure)
    requires !(f.HttpError? && f.data.Some?)
    ensures CategoryBanner(f) == Some(SaveDefault)
  {
  }

  /** The handler fails to set a banner exactly when `erros` is truthy but
      not an array while `errors` is an array. */
  lemma BannerMissingIff(f: Failure)
    ensures CategoryBanner(f).None? <==>
      && f.HttpError? && f.data.Some?
      && f.data.value.erros.NotArray? && f.data.value.erros.truthy
      && f.data.value.errors.Array?
  {
  }

  /** Whenever a banner is set, its text is non-empty, so the alert renders. */
  lemma BannerNonEmpty(f: Failure)
    requires CategoryBanner(f).Some?
    ensures Truthy(CategoryBanner(f))
  {
    var b := CategoryBanner(f).value;
    if f.HttpError? && f.data.Some? && f.data.value.erros.Array? && f.data.value.errors.Array? {
      assert b[0] == InvalidPrefix[0];
    }
  }

  /** In the structured branch the banner carries every message of `erros`,
      between the fixed prefix and suffix. */
  lemma ListBannerCarriesEveryMessage(items: seq<FieldError>, i: int)
    requires 0 <= i < |items|
    ensures Includes(ListBanner(items), MessageText(items[i]))
    ensures ListBanner(items)[..|InvalidPrefix|] == InvalidPrefix
    ensures ListBanner(items)[|ListBanner(items)| - |InvalidSuffix|..] == InvalidSuffix
  {
    MessagesSpec(items);
    var joined := Join(Messages(items), ", ");
    JoinIncludesEach(Messages(items), ", ", i);
    IncludesPrepend(InvalidPrefix, joined, MessageText(items[i]));
    IncludesAppend(InvalidPrefix + joined, InvalidSuffix, MessageText(items[i]));
  }

  /** As written, the content of `errors` is never read: only whether it is an
      array matters. */
  lemma ErrorsContentIgnored(data: ErrorData, a: seq<FieldError>, b: seq<FieldError>)
    ensures CategoryBanner(HttpError(Some(data.(errors := Array(a))))) ==
            CategoryBanner(HttpError(Some(data.(errors := Array(b)))))
  {
  }

  /** As written, a server that reports its field errors under `errors` only
      (with no `erros`) gets the body's `error` or the default text: its
      messages never reach the banner. */
  lemma ErrorsOnlyMessagesDropped(data: ErrorData)
    requires !data.erros.Truthy() && data.errors.Array?
    ensures CategoryBanner(HttpError(Some(data))) == Some(Or(data.error, SaveDefault))
    ensures data.error.None? ==> CategoryBanner(HttpError(Some(data))) == Some(SaveDefault)
  {
  }

  /** A body with messages under `erros` next to an empty `errors` array lists
      those messages. */
  lemma ErrosListed(m1: string, m2: string)
    ensures CategoryBanner(HttpError(Some(ErrorData(Some(400), None, None, Array([]),
              Array([FieldError("nome", Some(m1)), FieldError("nome", Some(m2))])))))
            == Some(InvalidPrefix + m1 + ", " + m2 + InvalidSuffix)
  {
    var items := [FieldError("nome", Some(m1)), FieldError("nome", Some(m2))];
    assert items[..1][..0] == [];
    assert Messages(items[..1]) == [m1];
    assert Messages(items) == Messages(items[..1]) + [m2];
    assert [m1, m2][..1] == [m1];
    assert Join([m1, m2], ", ") == m1 + ", " + m2;
    assert Messages(items) == [m1, m2];
    assert ListBanner(items) == InvalidPrefix + (m1 + ", " + m2) + InvalidSuffix;
    assert InvalidPrefix + (m1 + ", " + m2) == InvalidPrefix + m1 + ", " + m2;
  }

  // ---------------------------------------------------------------------------
  // The page

  class NovaCategoriaForm {
    var nome: string
    var loading: bool
    var success: Option<string>
    var error: Option<string>
    /** The `setTimeout` that navigates back to the category list has been started. */
    var navigationScheduled: bool
    /** The payload of the `save` call being awaited, if any. */
    ghost var inFlight: Option<CategoriaDTO>

    ghost predicate Valid()
      reads this
    {
      && (loading <==> inFlight.Some?)
    }

    constructor ()
      ensures Valid()
      ensures nome == "" && !loading && success == None && error == None && !navigationScheduled
    {
      nome := "";
      loading := false;
      success := None;
      error := None;
      navigationScheduled := false;
      inFlight := None;
    }

    /** `handleChange`: the only input is the name. */
    method HandleChange(value: string)
      requires Valid()
      modifies this`nome
      ensures Valid()
      ensures nome == value
    {
      nome := value;
    }

    /** `handleSubmi` up to the awaited `save` call: the form data is sent as
        it is, without validation; the error banner is cleared but a success
        banner from an earlier save is not. The submit button is disabled
        while loading. */
    method BeginSave() returns (payload: CategoriaDTO)
      requires Valid() && !loading
      modifies this`loading, this`error, this`inFlight
      ensures Valid()
      ensures loading && error == None
      ensures payload == CategoriaDTO(nome)
      ensures inFlight == Some(payload)
    {
      loading := true;
      error := None;
      payload := CategoriaDTO(nome);
      inFlight := Some(payload);
    }

    /** `handleSubmi` after the awaited call. Success shows the banner, empties
        the name and schedules the navigation; a failure sets the banner that
        `CategoryBanner` chooses, and leaves the error as it was when the
        handler throws. Either way `loading` drops (`finally`). */
    method CompleteSave(outcome: Outcome)
      requires Valid() && loading
      modifies this
      ensures Valid()
      ensures !loading && inFlight == None
      ensures outcome.Ok? ==>
                && success == Some(SaveSuccess) && nome == "" && navigationScheduled
                && error == old(error)
      ensures outcome.Err? ==>
                && error == (if CategoryBanner(outcome.failure).Some? then CategoryBanner(outcome.failure) else old(error))
                && success == old(success) && nome == old(nome)
                && navigationScheduled == old(navigationScheduled)
    {
      match outcome {
        case Ok =>
          success := Some(SaveSuccess);
          nome := "";
          navigationScheduled := true;
        case Err(f) =>
          var msg := SaveDefault;
          var throws := false;
          if f.HttpError? && f.data.Some? {
            var data := f.data.value;
            if data.erros.Truthy() && data.errors.Array? {
              if data.erros.Array? {
                var errorMessages := Join(Messages(data.erros.items), ", ");
                msg := InvalidPrefix + errorMessages + InvalidSuffix;
              } else {
                throws := true;
              }
            } else {
              msg := Or(data.error, msg);
            }
          }
          if !throws {
            error := Some(msg);
          }
      }
      loading := false;
      inFlight := None;
    }
  }

  /** An empty name is sent to the service as it is. */
  method EmptyNameScenario() returns (payload: CategoriaDTO)
    ensures payload == CategoriaDTO("")
  {
    var form := new NovaCategoriaForm();
    payload := form.BeginSave();
  }
}
