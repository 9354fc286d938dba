/** The domain record, the service error, the ingest service `GreetingServiceImpl`
    and the in-memory sink `MockGreetingRepository` (src/greeting/service.rs). */
module Service {
  import opened Results
  import opened Time

  /** The domain record: four text fields and the creation time. */
  datatype Greeting = Greeting(
    to: string,
    from: string,
    heading: string,
    message: string,
    created: NaiveDateTime)

  /** `ServiceError`: the only error type the service and its repositories return. */
  datatype ServiceError = UnrecognizedGreetingError | RepoError(detail: string)

  /** `Greeting::new`: the four text fields as given and the default creation time. */
  function NewGreeting(to: string, from: string, heading: string, message: string): (g: Greeting)
    ensures g.to == to && g.from == from && g.heading == heading && g.message == message
    ensures g.created == DefaultNaiveDateTime
  {
    Greeting(to, from, heading, message, DefaultNaiveDateTime)
  }

  /** Two greetings built by `Greeting::new` are equal exactly when their text fields are:
      the constructor loses nothing and adds nothing that depends on when it ran. */
  lemma NewGreetingInjective(to: string, from: string, heading: string, message: string,
                             to': string, from': string, heading': string, message': string)
    ensures NewGreeting(to, from, heading, message) == NewGreeting(to', from', heading', message')
        <==> to == to' && from == from' && heading == heading' && message == message'
  {
  }

  /** The in-memory sink of the service's unit test: a vector that `store` pushes onto
      and `all` clones. */
  class MockGreetingRepository {
    var greetings: seq<Greeting>

    /** `MockGreetingRepository::new`: an empty vector. */
    constructor ()
      ensures greetings == []
    {
      greetings := [];
    }

    /** `all`: the stored greetings in insertion order; never fails, changes nothing. */
    method All() returns (r: Result<seq<Greeting>, ServiceError>)
      ensures r == Ok(greetings)
    {
      r := Ok(greetings);
    }

    /** `store`: appends the greeting at the end, keeps every earlier one in place, and
        never fails. Equal greetings are not deduplicated. */
    method Store(greeting: Greeting) returns (r: Result<(), ServiceError>)
      modifies this
      ensures greetings == old(greetings) + [greeting]
      ensures r == Ok(())
    {
      greetings := greetings + [greeting];
      r := Ok(());
    }
  }

  /** `GreetingServiceImpl<C>` with `C = MockGreetingRepository`: it owns its repository
      and forwards both operations to it. */
  class GreetingServiceImpl {
    const repo: MockGreetingRepository

    /** `GreetingServiceImpl::new(repo)`. */
    constructor (repo: MockGreetingRepository)
      ensures this.repo == repo
    {
      this.repo := repo;
    }

    /** `receive_greeting`: returns what `repo.store` returns, with the repository's
        effect: the greeting appended. */
    method ReceiveGreeting(greeting: Greeting) returns (r: Result<(), ServiceError>)
      modifies repo
      ensures repo.greetings == old(repo.greetings) + [greeting]
      ensures r == Ok(())
    {
      r := repo.Store(greeting);
    }

    /** `all_greetings`: returns what `repo.all` returns; changes nothing. */
    method AllGreetings() returns (r: Result<seq<Greeting>, ServiceError>)
      ensures r == Ok(repo.greetings)
    {
      r := repo.All();
    }
  }

  /** The service's unit test `test_receive_greeting`: a greeting received by a service
      over a fresh repository is accepted, and `all_greetings` then yields exactly it. */
  method TestReceiveGreeting() returns (received: Result<(), ServiceError>,
                                        all: Result<seq<Greeting>, ServiceError>)
    ensures received == Ok(())
    ensures all == Ok([NewGreeting("John", "Jane", "Hello", "Hi John!")])
  {
    var mockRepo := new MockGreetingRepository();
    var service := new GreetingServiceImpl(mockRepo);
    var greeting := NewGreeting("John", "Jane", "Hello", "Hi John!");
    received := service.ReceiveGreeting(greeting);
    assert mockRepo.greetings == [greeting];
    all := service.AllGreetings();
  }

  /** Store then all, for any greeting: on a fresh repository the result is exactly `[g]`. */
  method StoreThenAll(g: Greeting) returns (all: Result<seq<Greeting>, ServiceError>)
    ensures all == Ok([g])
  {
    var mockRepo := new MockGreetingRepository();
    var service := new GreetingServiceImpl(mockRepo);
    var _ := service.ReceiveGreeting(g);
    assert mockRepo.greetings == [g];
    all := service.AllGreetings();
  }

  /** Storing the same greeting twice keeps two entries: the sink does not deduplicate. */
  method StoreTwiceThenAll(g: Greeting) returns (all: Result<seq<Greeting>, ServiceError>)
    ensures all == Ok([g, g])
  {
    var mockRepo := new MockGreetingRepository();
    var service := new GreetingServiceImpl(mockRepo);
    var _ := service.ReceiveGreeting(g);
    assert mockRepo.greetings == [g];
    var _ := service.ReceiveGreeting(g);
    assert mockRepo.greetings == [g, g];
    all := service.AllGreetings();
  }
}
