/**
 * The browser as the client code sees it: `localStorage`, `fetch`, the
 * Next.js router and `window.location`, and the toast area. The server and
 * the network are a script of replies that `fetch` consumes one at a time;
 * every request the page makes is logged, in order.
 */
module Browser {
  import opened Js

  datatype Request = Request(url: string, verb: string, headers: map<string, string>, body: Option<Json>)

  /** A response; `body == None` means the body is not JSON, so `res.json()` rejects. */
  datatype Response = Response(status: int, body: Option<Json>)
  {
    /** `res.ok` */
    predicate IsOk() { 200 <= status <= 299 }
  }

  /** What a `fetch` settles to: a response, or a rejection (network failure, CORS, server down). */
  datatype Reply = Answer(response: Response) | NetworkError

  datatype Navigation =
    | Assign(href: string)   // window.location.href = ...
    | Push(path: string)     // router.push
    | Replace(path: string)  // router.replace

  datatype Toast = Success(text: string) | Failure(text: string)

  /** The thrown value of a failed call: its `message` and, where the code sets one, its `status`. */
  datatype Error = Error(message: string, status: Option<int>)

  datatype Result<T> = Ok(value: T) | Err(error: Error)

  /** `fetch` rejected. */
  const NetworkFailure := Error("Failed to fetch", None)
  /** `res.json()` rejected on a body that is not JSON. */
  const ParseFailure := Error("Unexpected token in JSON", None)
  /** Property access on `null`. */
  const TypeFailure := Error("Cannot read properties of null", None)

  /** Everything the page can observe or change, at one instant. */
  datatype World = World(
    storage: map<string, string>,
    sent: seq<Request>,
    replies: seq<Reply>,
    nav: seq<Navigation>,
    toasts: seq<Toast>)

  function GetItem(w: World, key: string): Option<string>
  {
    if key in w.storage then Some(w.storage[key]) else None
  }

  /** `fetch(req)`: the request is logged and the next scripted reply is taken. */
  function Send(w: World, req: Request): (World, Reply)
  {
    var reply := if w.replies == [] then NetworkError else w.replies[0];
    var rest := if w.replies == [] then [] else w.replies[1..];
    (w.(sent := w.sent + [req], replies := rest), reply)
  }

  function SetItem(w: World, key: string, value: string): World
  {
    w.(storage := w.storage[key := value])
  }

  function RemoveItem(w: World, key: string): World
  {
    w.(storage := w.storage - {key})
  }

  function Navigate(w: World, n: Navigation): World
  {
    w.(nav := w.nav + [n])
  }

  function ShowToast(w: World, t: Toast): World
  {
    w.(toasts := w.toasts + [t])
  }

  /** `await res.json()` */
  function ParseBody(res: Response): Result<Json>
  {
    if res.body.Some? then Ok(res.body.value) else Err(ParseFailure)
  }

  /** The page's window, with the same parts as `World`, updated in place. */
  class Window {
    var storage: map<string, string>
    var sent: seq<Request>
    var replies: seq<Reply>
    var nav: seq<Navigation>
    var toasts: seq<Toast>

    function State(): World
      reads this
    {
      World(storage, sent, replies, nav, toasts)
    }

    constructor (storage0: map<string, string>, replies0: seq<Reply>)
      ensures State() == World(storage0, [], replies0, [], [])
    {
      storage := storage0;
      sent := [];
      replies := replies0;
      nav := [];
      toasts := [];
    }

    method Fetch(req: Request) returns (reply: Reply)
      modifies this
      ensures (State(), reply) == Send(old(State()), req)
    {
      sent := sent + [req];
      if replies == [] {
        reply := NetworkError;
      } else {
        reply := replies[0];
        replies := replies[1..];
      }
    }

    method SetStorage(key: string, value: string)
      modifies this
      ensures State() == SetItem(old(State()), key, value)
    {
      storage := storage[key := value];
    }

    method RemoveStorage(key: string)
      modifies this
      ensures State() == RemoveItem(old(State()), key)
    {
      storage := storage - {key};
    }

    method Go(n: Navigation)
      modifies this
      ensures State() == Navigate(old(State()), n)
    {
      nav := nav + [n];
    }

    method Notify(t: Toast)
      modifies this
      ensures State() == ShowToast(old(State()), t)
    {
      toasts := toasts + [t];
    }
  }
}
