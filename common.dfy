/** Small shared types of the pipeline model. */
module Common {

  datatype Option<+T> = None | Some(value: T)

  /** The two classes of exception the service's main loop tells apart:
      `requests.exceptions.ConnectionError` and every other exception. */
  datatype Failure = ConnectionError | OtherError

  /** Which version of a stage: the one in `ltbw_bot_service.py`, or the earlier
      standalone draft (`ltgetter.py`, `mattermost_adapter.py`). */
  datatype Variant = Service | Draft
}
