/** The Thread object of Linux/utils/Thread.hpp: a member function that runs on a thread of its own. */
module ThreadObject {

  class Thread {
    /** The std::thread has been started and not joined. */
    var joinable: bool
    var stopRequest: bool

    constructor ()
      ensures !joinable && !stopRequest
    {
      joinable, stopRequest := false, false;
    }

    /** Assigning to a std::thread that has not been joined ends the program. */
    method Start() returns (terminated: bool)
      modifies this
      ensures terminated <==> old(joinable)
      ensures joinable && !stopRequest
    {
      stopRequest := false;
      terminated := joinable;
      joinable := true;
    }

    /** Returns once the thread has ended, at once if it was never started. */
    method Wait()
      modifies this
      ensures !joinable && !stopRequest
    {
      if joinable {
        joinable := false;
      }
      stopRequest := false;
    }

    /** With `doWait` the request is gone again when the call returns. */
    method Stop(doWait: bool)
      modifies this
      ensures joinable == (old(joinable) && !doWait) && stopRequest == !doWait
    {
      stopRequest := true;
      if doWait {
        Wait();
      }
    }
  }
}
