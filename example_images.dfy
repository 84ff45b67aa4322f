/** The image example application: the arrow keys move a picture around the
    128x64 screen in steps of two pixels, and any other key ends the app. */
module ExampleImages {
  import opened Ints
  import opened InputEvents

  /** `ImagePosition`, the value of the static position. */
  datatype Position = Position(x: u8, y: u8)

  /** The position together with the event loop's `running` flag. */
  datatype AppState = AppState(position: Position, running: bool)

  /** One poll of the event queue: it times out, or it yields an event. */
  datatype Poll = Timeout | Received(event: InputEvent)

  /** `v -= 2` on a `uint8_t`. */
  function Minus2(v: u8): (r: u8)
    ensures r == if v >= 2 then v - 2 else v + 254
  {
    (v - 2) % 256
  }

  /** `v += 2` on a `uint8_t`. */
  function Plus2(v: u8): (r: u8)
    ensures r == if v < 254 then v + 2 else v - 254
  {
    (v + 2) % 256
  }

  /** The two steps undo each other, thanks to the wrap-around. */
  lemma StepsCancel(v: u8)
    ensures Plus2(Minus2(v)) == v && Minus2(Plus2(v)) == v
  {
  }

  /** Whether the event is acted on at all: a press or an auto-repeat. */
  predicate Acted(e: InputEvent)
  {
    e.kind == Press || e.kind == Repeat
  }

  /** Whether the event ends the loop: an acted-on key that is not an arrow. */
  predicate Quits(e: InputEvent)
  {
    Acted(e) && e.key !in {Left, Right, Up, Down}
  }

  /** The key dispatch of the event loop for one event. */
  function Step(st: AppState, e: InputEvent): (r: AppState)
    ensures r.running == (st.running && !Quits(e))
    ensures Quits(e) || !Acted(e) ==> r.position == st.position
    ensures r.position.x != st.position.x ==> Acted(e) && e.key in {Left, Right}
    ensures r.position.y != st.position.y ==> Acted(e) && e.key in {Up, Down}
  {
    if e.kind == Press || e.kind == Repeat then
      match e.key
      case Left => st.(position := st.position.(x := Minus2(st.position.x)))
      case Right => st.(position := st.position.(x := Plus2(st.position.x)))
      case Up => st.(position := st.position.(y := Minus2(st.position.y)))
      case Down => st.(position := st.position.(y := Plus2(st.position.y)))
      case _ => st.(running := false)
    else
      st
  }

  /** What one event does: Left/Right move `x` by two, Up/Down move `y` by
      two (modulo 256), any other acted-on key stops the loop, and releases,
      short and long presses change nothing. */
  lemma StepEffect(st: AppState, e: InputEvent)
    ensures var r := Step(st, e);
      Acted(e) && e.key == Left ==>
        r.position.x == (st.position.x - 2) % 256 && r.position.y == st.position.y && r.running == st.running
    ensures var r := Step(st, e);
      Acted(e) && e.key == Right ==>
        r.position.x == (st.position.x + 2) % 256 && r.position.y == st.position.y && r.running == st.running
    ensures var r := Step(st, e);
      Acted(e) && e.key == Up ==>
        r.position.y == (st.position.y - 2) % 256 && r.position.x == st.position.x && r.running == st.running
    ensures var r := Step(st, e);
      Acted(e) && e.key == Down ==>
        r.position.y == (st.position.y + 2) % 256 && r.position.x == st.position.x && r.running == st.running
    ensures Quits(e) ==> Step(st, e) == st.(running := false)
    ensures !Acted(e) ==> Step(st, e) == st
  {
  }

  /** Left then Right, Right then Left, Up then Down and Down then Up each
      restore the state, whichever of press and repeat carries each key. */
  lemma OppositeStepsRestore(st: AppState, k1: InputType, k2: InputType)
    requires (k1 == Press || k1 == Repeat) && (k2 == Press || k2 == Repeat)
    ensures Step(Step(st, InputEvent(k1, Left)), InputEvent(k2, Right)) == st
    ensures Step(Step(st, InputEvent(k1, Right)), InputEvent(k2, Left)) == st
    ensures Step(Step(st, InputEvent(k1, Up)), InputEvent(k2, Down)) == st
    ensures Step(Step(st, InputEvent(k1, Down)), InputEvent(k2, Up)) == st
  {
  }

  /** One iteration of the loop for one poll of the queue. */
  function PollStep(st: AppState, p: Poll): AppState
  {
    match p
    case Timeout => st
    case Received(e) => Step(st, e)
  }

  /** The state after the polls `ps`, in order. */
  function Steps(st: AppState, ps: seq<Poll>): AppState
    decreases |ps|
  {
    if ps == [] then st else PollStep(Steps(st, ps[..|ps| - 1]), ps[|ps| - 1])
  }

  /** The horizontal (`dx`) or vertical displacement one poll asks for. */
  function Shift(p: Poll, horizontal: bool): int
  {
    match p
    case Timeout => 0
    case Received(e) =>
      if !Acted(e) then 0
      else if horizontal then (if e.key == Left then -2 else if e.key == Right then 2 else 0)
      else (if e.key == Up then -2 else if e.key == Down then 2 else 0)
  }

  /** The net displacement the polls `ps` ask for along one axis. */
  function NetShift(ps: seq<Poll>, horizontal: bool): int
    decreases |ps|
  {
    if ps == [] then 0 else NetShift(ps[..|ps| - 1], horizontal) + Shift(ps[|ps| - 1], horizontal)
  }

  /** Whether one of the polls delivers an event that ends the loop. */
  predicate SomeQuit(ps: seq<Poll>)
  {
    exists i :: 0 <= i < |ps| && ps[i].Received? && Quits(ps[i].event)
  }

  /** After any polls the position is the start position plus the net
      displacement, taken modulo 256, and the loop is still running exactly
      when it was running and no poll delivered a quitting event. */
  lemma {:induction false} StepsAccumulate(st: AppState, ps: seq<Poll>)
    ensures Steps(st, ps).position.x == (st.position.x + NetShift(ps, true)) % 256
    ensures Steps(st, ps).position.y == (st.position.y + NetShift(ps, false)) % 256
    ensures Steps(st, ps).running <==> st.running && !SomeQuit(ps)
    decreases |ps|
  {
    if ps != [] {
      var init := ps[..|ps| - 1];
      StepsAccumulate(st, init);
      var last := ps[|ps| - 1];
      var prev := Steps(st, init);
      var nx := NetShift(init, true);
      var ny := NetShift(init, false);
      assert prev.position.x == (st.position.x + nx) % 256;
      ModuloShift(st.position.x + nx, Shift(last, true));
      ModuloShift(st.position.y + ny, Shift(last, false));
      if SomeQuit(init) {
        var i :| 0 <= i < |init| && init[i].Received? && Quits(init[i].event);
        assert ps[i] == init[i];
      }
    }
  }

  lemma ModuloShift(a: int, d: int)
    requires d == -2 || d == 0 || d == 2
    ensures ((a % 256) + d) % 256 == (a + d) % 256
  {
  }

  /** The draw callback's position: reduced modulo the screen's 128x64 size. */
  function DrawOrigin(p: Position): (o: (int, int))
    ensures 0 <= o.0 < 128 && 0 <= o.1 < 64
    ensures o.0 == p.x || o.0 == p.x - 128
    ensures p.y - o.1 in {0, 64, 128, 192}
  {
    (p.x % 128, p.y % 64)
  }

  /** The static `image_position`, which the event loop updates in place. */
  class ImagePosition {
    var x: u8
    var y: u8

    constructor ()
      ensures x == 0 && y == 0
    {
      x, y := 0, 0;
    }

    function Value(): Position
      reads this
    {
      Position(x, y)
    }
  }

  /** `example_images_main`'s event loop over the polls of `queue`: it runs
      until an event ends it or, since the model's queue is finite, until the
      queue is used up. It returns `running` and the number of polls taken. */
  method EventLoop(pos: ImagePosition, queue: seq<Poll>) returns (running: bool, taken: nat)
    modifies pos
    ensures taken <= |queue|
    ensures Steps(AppState(old(pos.Value()), true), queue[..taken]) == AppState(pos.Value(), running)
    ensures running ==> taken == |queue|
    ensures !running ==> 0 < taken && queue[taken - 1].Received? && Quits(queue[taken - 1].event)
    ensures forall i :: 0 <= i < taken - 1 ==> !(queue[i].Received? && Quits(queue[i].event))
    ensures running ==> forall i :: 0 <= i < taken ==> !(queue[i].Received? && Quits(queue[i].event))
  {
    running := true;
    taken := 0;
    while running && taken < |queue|
      invariant taken <= |queue|
      invariant Steps(AppState(old(pos.Value()), true), queue[..taken]) == AppState(pos.Value(), running)
      invariant !running ==> 0 < taken && queue[taken - 1].Received? && Quits(queue[taken - 1].event)
      invariant forall i :: 0 <= i < taken - 1 ==> !(queue[i].Received? && Quits(queue[i].event))
      invariant running ==> forall i :: 0 <= i < taken ==> !(queue[i].Received? && Quits(queue[i].event))
    {
      var p := queue[taken];
      if p.Received? {
        var event := p.event;
        if event.kind == Press || event.kind == Repeat {
          match event.key {
            case Left => pos.x := (pos.x - 2) % 256;
            case Right => pos.x := (pos.x + 2) % 256;
            case Up => pos.y := (pos.y - 2) % 256;
            case Down => pos.y := (pos.y + 2) % 256;
            case _ => running := false;
          }
        }
      }
      assert queue[..taken + 1][..taken] == queue[..taken];
      taken := taken + 1;
    }
  }
}
