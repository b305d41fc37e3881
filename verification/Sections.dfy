/** The critical sections under uploadsMu (internal/api/watcher.go), each as a
    function on the variables it shares with the other goroutines of one path. */
module Sections {
  import opened Metadata

  /** One in-flight upload. cancel names the attempt whose context the stored cancel
      function ends; ended collects the attempts whose contexts were canceled by a blocker. */
  datatype UploadState = UploadState(rerun: bool, canceled: bool, cancel: Option<nat>, ended: set<nat>)

  const NEW_UPLOAD := UploadState(false, false, None, {})

  /** uploads[path], the upload states by identity, blocked[path], retries[path] and whether
      retryTimers[path] exists. */
  datatype Shared = Shared(upload: Option<nat>, states: map<nat, UploadState>, blocked: nat, retries: nat, timer: bool)

  const IDLE := Shared(None, map[], 0, 0, false)

  datatype Triggered = HandedBack | Rerun | Started

  /** First section of uploadNewFile, run by a goroutine whose new state would be g. */
  function Trigger(s: Shared, g: nat): (Shared, Triggered)
    requires s.upload.Some? ==> s.upload.value in s.states
  {
    if s.blocked > 0 then (s, HandedBack)
    else if s.upload.Some? then
      (s.(states := s.states[s.upload.value := s.states[s.upload.value].(rerun := true)]), Rerun)
    else (s.(upload := Some(g), states := s.states[g := NEW_UPLOAD]), Started)
  }

  /** uploadOnce publishes its cancel function unless it was canceled already. */
  function Publish(s: Shared, g: nat, attempt: nat): (Shared, bool)
    requires g in s.states
  {
    if s.states[g].canceled then (s, false)
    else (s.(states := s.states[g := s.states[g].(cancel := Some(attempt))]), true)
  }

  function Canceled(st: UploadState): UploadState {
    st.(canceled := true, rerun := false, ended := if st.cancel.Some? then st.ended + {st.cancel.value} else st.ended)
  }

  /** The section of blockUploads; the result is the upload to wait for. */
  function Block(s: Shared): (Shared, Option<nat>)
    requires s.upload.Some? ==> s.upload.value in s.states
  {
    var s' := s.(blocked := s.blocked + 1);
    if s.upload.Some? then
      (s'.(states := s.states[s.upload.value := Canceled(s.states[s.upload.value])]), s.upload)
    else (s', None)
  }

  function Unblock(s: Shared): Shared {
    s.(blocked := if s.blocked > 0 then s.blocked - 1 else 0)
  }

  datatype Finished = Again | Succeeded | Failed | Dropped

  /** The section at the end of each round of uploadNewFile's loop. */
  function Finish(s: Shared, g: nat, retry: bool): (Shared, Finished)
    requires g in s.states
  {
    var st := s.states[g];
    if st.rerun && !st.canceled then (s.(states := s.states[g := st.(rerun := false)]), Again)
    else if retry && !st.canceled then (s.(upload := None, retries := s.retries + 1, timer := true), Failed)
    else (s.(upload := None, retries := 0, timer := false), if st.canceled then Dropped else Succeeded)
  }
}
