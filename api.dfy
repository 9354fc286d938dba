/** The HTTP layer (src/greeting/api.rs): the request DTO and its length constraints, the
    API error and its status codes, the DTO/domain conversions, the `greet` handler, and
    the service stub its tests use. */
module Api {
  import opened Results
  import opened Time
  import opened Service

  /** The JSON body of `POST /greeting`. */
  datatype GreetingDto = GreetingDto(
    to: string,
    from: string,
    heading: string,
    message: string,
    created: UtcDateTime)

  /** The four validated fields of the DTO. */
  datatype Field = To | From | Heading | Message

  const AllFields: set<Field> := {To, From, Heading, Message}

  /** The lower bound every `length` constraint of the DTO declares. */
  const MinLength: nat := 1

  /** The upper bound of each field's `length` constraint. */
  function MaxLength(f: Field): nat
  {
    match f
    case To => 20
    case From => 20
    case Heading => 50
    case Message => 50
  }

  function FieldText(dto: GreetingDto, f: Field): string
  {
    match f
    case To => dto.to
    case From => dto.from
    case Heading => dto.heading
    case Message => dto.message
  }

  /** The validator counts characters (Unicode scalar values), which is what `|s|`
      counts on a Dafny string. */
  predicate FieldValid(dto: GreetingDto, f: Field)
  {
    MinLength <= |FieldText(dto, f)| <= MaxLength(f)
  }

  /** The constraints written out, as the DTO declares them. */
  predicate IsValid(dto: GreetingDto)
  {
    && 1 <= |dto.to| <= 20
    && 1 <= |dto.from| <= 20
    && 1 <= |dto.heading| <= 50
    && 1 <= |dto.message| <= 50
  }

  /** A failed `length` constraint as the validator reports it: its code's parameters
      `min`, `max` and the offending `value`. */
  datatype LengthError = LengthError(min: nat, max: nat, value: string)

  /** `ValidationErrors`: the failed constraint of each offending field, keyed by field. */
  type ValidationErrors = map<Field, LengthError>

  /** `GreetingDto::validate`: succeeds exactly when every field is within its bounds;
      otherwise reports every offending field, and only those, with its constraint. */
  function Validate(dto: GreetingDto): (r: Result<(), ValidationErrors>)
    ensures r.Ok? <==> IsValid(dto)
    ensures r.Err? ==> r.error != map[]
    ensures r.Err? ==> forall f :: f in r.error <==> !FieldValid(dto, f)
    ensures r.Err? ==> forall f :: f in r.error ==> r.error[f] == LengthError(MinLength, MaxLength(f), FieldText(dto, f))
  {
    var errors := map f | f in AllFields && !FieldValid(dto, f) :: LengthError(MinLength, MaxLength(f), FieldText(dto, f));
    if errors == map[] then
      assert To !in errors && From !in errors && Heading !in errors && Message !in errors;
      Ok(())
    else
      Err(errors)
  }

  /** The HTTP status codes the handler produces. */
  const OK: int := 200
  const BAD_REQUEST: int := 400
  const INTERNAL_SERVER_ERROR: int := 500

  predicate IsSuccess(status: int) { 200 <= status < 300 }
  predicate IsClientError(status: int) { 400 <= status < 500 }
  predicate IsServerError(status: int) { 500 <= status < 600 }

  /** `ApiError`. `Applicationerror`, without a cause, is what `greet` returns when the
      lock on the service cannot be taken. */
  datatype ApiError =
    | BadClientData(errors: ValidationErrors)
    | ApplicationError(cause: ServiceError)
    | Applicationerror

  /** `ResponseError::status_code`: a client error for bad data, a server error for both
      application errors. */
  function StatusCode(e: ApiError): (status: int)
    ensures IsClientError(status) <==> e.BadClientData?
    ensures IsServerError(status) <==> !e.BadClientData?
    ensures e.BadClientData? ==> status == BAD_REQUEST
    ensures !e.BadClientData? ==> status == INTERNAL_SERVER_ERROR
  {
    match e
    case BadClientData(_) => BAD_REQUEST
    case ApplicationError(_) => INTERNAL_SERVER_ERROR
    case _ => INTERNAL_SERVER_ERROR
  }

  /** `From<ValidationErrors> for ApiError` and `From<ServiceError> for ApiError`. */
  function FromValidationErrors(errors: ValidationErrors): (e: ApiError)
    ensures e.BadClientData? && e.errors == errors
  {
    BadClientData(errors)
  }

  function FromServiceError(cause: ServiceError): (e: ApiError)
    ensures e.ApplicationError? && e.cause == cause
  {
    ApplicationError(cause)
  }

  /** An HTTP response: the status and the body. */
  datatype HttpResponse = HttpResponse(status: int, body: string)

  /** The status of a handler's result: its response's, or its error's status code. */
  function ResponseStatus(r: Result<HttpResponse, ApiError>): int
  {
    match r
    case Ok(resp) => resp.status
    case Err(e) => StatusCode(e)
  }

  /** `Into<Greeting> for GreetingDto`: the four text fields as given and the creation
      time read as a naive UTC time. */
  function DtoToGreeting(dto: GreetingDto): (g: Greeting)
    ensures g.to == dto.to && g.from == dto.from && g.heading == dto.heading && g.message == dto.message
    ensures AndUtc(g.created) == dto.created
  {
    Greeting(dto.to, dto.from, dto.heading, dto.message, NaiveUtc(dto.created))
  }

  /** `From<Greeting> for GreetingDto`: the inverse conversion. */
  function GreetingToDto(g: Greeting): (dto: GreetingDto)
    ensures DtoToGreeting(dto) == g
  {
    GreetingDto(g.to, g.from, g.heading, g.message, AndUtc(g.created))
  }

  /** DTO to greeting to DTO is the identity. */
  lemma DtoRoundTrip(dto: GreetingDto)
    ensures GreetingToDto(DtoToGreeting(dto)) == dto
  {
  }

  /** A greeting obeys the bounds its DTO was validated against. */
  predicate WithinBounds(g: Greeting)
  {
    IsValid(GreetingToDto(g))
  }

  /** Every greeting built from a DTO that passed validation is within the bounds. */
  lemma ValidDtoGivesBoundedGreeting(dto: GreetingDto)
    requires Validate(dto).Ok?
    ensures WithinBounds(DtoToGreeting(dto))
  {
  }

  /** What `greet` returns, given the outcome of validation, whether the write lock was
      taken, and what the service returned. Validation comes first; the service's error
      is propagated unchanged inside `ApplicationError`; success is 200 with an empty
      body (not 201). */
  function GreetResponse(validation: Result<(), ValidationErrors>, lockAcquired: bool,
                         received: Result<(), ServiceError>): (r: Result<HttpResponse, ApiError>)
    ensures validation.Err? ==> r == Err(BadClientData(validation.error))
    ensures validation.Ok? && !lockAcquired ==> r == Err(Applicationerror)
    ensures validation.Ok? && lockAcquired && received.Err? ==> r == Err(ApplicationError(received.error))
    ensures r.Ok? <==> validation.Ok? && lockAcquired && received.Ok?
    ensures r.Ok? ==> r.value == HttpResponse(OK, "")
    ensures IsClientError(ResponseStatus(r)) <==> validation.Err?
    ensures IsSuccess(ResponseStatus(r)) <==> r.Ok?
  {
    if validation.Err? then Err(FromValidationErrors(validation.error))
    else if lockAcquired then
      if received.Err? then Err(FromServiceError(received.error))
      else Ok(HttpResponse(OK, ""))
    else Err(Applicationerror)
  }

  /** `GreetingSvcStub`: the service the handler's tests run against. It has no state
      and accepts every greeting. (It declares no `all_greetings`.) */
  class GreetingSvcStub {
    constructor ()
    {
    }

    method ReceiveGreeting(greeting: Greeting) returns (r: Result<(), ServiceError>)
      ensures r == Ok(())
    {
      r := Ok(());
    }
  }

  /** The shared `Box<dyn GreetingService>`: one of the two services of this model. */
  datatype GreetingServiceHandle =
    | ServiceImpl(service: GreetingServiceImpl)
    | SvcStub(stub: GreetingSvcStub)
  {
    /** The objects a call through the handle may change. */
    function Footprint(): set<object>
    {
      match this
      case ServiceImpl(s) => {s.repo}
      case SvcStub(_) => {}
    }

    /** The greetings the service holds, where it keeps any. */
    function Stored(): seq<Greeting>
      reads Footprint()
    {
      match this
      case ServiceImpl(s) => s.repo.greetings
      case SvcStub(_) => []
    }

    /** `receive_greeting` dispatched on the service behind the handle. */
    method ReceiveGreeting(greeting: Greeting) returns (r: Result<(), ServiceError>)
      modifies Footprint()
      ensures ServiceImpl? ==> Stored() == old(Stored()) + [greeting]
      ensures r == Ok(())
    {
      match this
      case ServiceImpl(s) => r := s.ReceiveGreeting(greeting);
      case SvcStub(stub) => r := stub.ReceiveGreeting(greeting);
    }
  }

  /** The `greet` handler: validate first, and only on success take the write lock (whose
      failure `lockAcquired` stands for), convert the DTO and hand the greeting to the
      service. A rejected request leaves the service untouched; an accepted one adds
      exactly the DTO's greeting and keeps every stored greeting within bounds. */
  method Greet(svc: GreetingServiceHandle, lockAcquired: bool, dto: GreetingDto)
    returns (r: Result<HttpResponse, ApiError>)
    modifies svc.Footprint()
    ensures r == GreetResponse(Validate(dto), lockAcquired, Ok(()))
    ensures !(IsValid(dto) && lockAcquired) ==> unchanged(svc.Footprint())
    ensures svc.ServiceImpl? && IsValid(dto) && lockAcquired ==>
              svc.Stored() == old(svc.Stored()) + [DtoToGreeting(dto)]
    ensures (forall i :: 0 <= i < |old(svc.Stored())| ==> WithinBounds(old(svc.Stored())[i])) ==>
              (forall i :: 0 <= i < |svc.Stored()| ==> WithinBounds(svc.Stored()[i]))
  {
    var validation := Validate(dto);
    if validation.Err? {
      return Err(FromValidationErrors(validation.error));
    }
    if lockAcquired {
      var greeting := DtoToGreeting(dto);
      ValidDtoGivesBoundedGreeting(dto);
      var received := svc.ReceiveGreeting(greeting);
      // `?` on the service's result, then the empty 200 response
      return received.MapErr(FromServiceError).Map(_ => HttpResponse(OK, ""));
    }
    return Err(Applicationerror);
  }

  /** The handler's test `test_store_greeting`: the stub accepts the sample greeting. */
  method TestStoreGreeting() returns (status: int)
    ensures IsSuccess(status) && status == OK
  {
    var stub := new GreetingSvcStub();
    var dto := GreetingDto("test", "testa", "Merry Christmas", "Happy new year", AndUtc(DefaultNaiveDateTime));
    var r := Greet(SvcStub(stub), true, dto);
    status := ResponseStatus(r);
  }

  /** The handler's test `test_invalid_greeting`: a 32-character `to` is a client error. */
  method TestInvalidGreeting() returns (status: int)
    ensures IsClientError(status) && status == BAD_REQUEST
  {
    var stub := new GreetingSvcStub();
    var dto := GreetingDto("testtesttesttesttesttesttesttest", "testa", "Merry Christmas", "Happy new year", AndUtc(DefaultNaiveDateTime));
    var r := Greet(SvcStub(stub), true, dto);
    status := ResponseStatus(r);
  }

  /** End to end over the in-memory sink: a valid DTO is answered with 200 and is then the
      one stored greeting; an invalid one is answered with 400 and nothing is stored. */
  method GreetThenAll(dto: GreetingDto) returns (status: int, all: Result<seq<Greeting>, ServiceError>)
    ensures IsValid(dto) ==> status == OK && all == Ok([DtoToGreeting(dto)])
    ensures !IsValid(dto) ==> status == BAD_REQUEST && all == Ok([])
  {
    var repo := new MockGreetingRepository();
    var service := new GreetingServiceImpl(repo);
    var r := Greet(ServiceImpl(service), true, dto);
    assert service.repo == repo;
    assert IsValid(dto) ==> repo.greetings == [DtoToGreeting(dto)];
    status := ResponseStatus(r);
    all := service.AllGreetings();
  }
}
