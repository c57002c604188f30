/**
 * The credential facade over the optional `keyring` module: the secret
 * store as an object whose entries `set_password` writes, and the two
 * standalone operations `have_password` and `set_password`.
 *
 * Whether the `keyring` module could be imported is a parameter of type
 * `Keyring?`: `null` stands for the failed import (`keyring = None`).
 */
module Credentials {
  import opened Wrappers

  /** A keyring key: (service, account), here (SMTP server, user or sender address). */
  type Key = (string, string)

  /** `keyring.get_password` on a store: the secret, or None when there is none. */
  function Lookup(store: map<Key, string>, key: Key): Option<string>
  {
    if key in store then Some(store[key]) else None
  }

  /** The secret-storage backend: a map from (service, account) to password. */
  class Keyring {
    var store: map<Key, string>

    constructor (store: map<Key, string>)
      ensures this.store == store
    {
      this.store := store;
    }

    function GetPassword(service: string, account: string): Option<string>
      reads this
    {
      Lookup(store, (service, account))
    }

    /** `keyring.set_password`: stores `password` under (service, account), replacing any old one. */
    method SetPassword(service: string, account: string, password: string)
      modifies this
      ensures store == old(store)[(service, account) := password]
    {
      store := store[(service, account) := password];
    }
  }

  /**
   * `have_password`: whether the keyring holds a password for the key. It
   * calls `keyring.get_password` without checking that the import
   * succeeded, so a present keyring is what it demands of its callers. Any
   * stored value counts, the empty string included, because the test is
   * `is not None`.
   */
  function HavePassword(keyring: Keyring, smtpServer: string, fromEmail: string): (r: bool)
    reads keyring
    ensures r <==> (smtpServer, fromEmail) in keyring.store
  {
    keyring.GetPassword(smtpServer, fromEmail).Some?
  }

  datatype SetOutcome = Stored | ImportError

  /**
   * `set_password`: fails with ImportError, touching nothing, when the
   * keyring module is missing; otherwise stores the password the user
   * `entered` at the prompt under (smtpServer, fromEmail).
   */
  method SetPassword(keyring: Keyring?, smtpServer: string, fromEmail: string, entered: string)
    returns (outcome: SetOutcome)
    modifies keyring
    ensures outcome == ImportError <==> keyring == null
    ensures keyring != null ==> keyring.store == old(keyring.store)[(smtpServer, fromEmail) := entered]
    ensures keyring != null ==> HavePassword(keyring, smtpServer, fromEmail)
    ensures keyring != null ==> keyring.GetPassword(smtpServer, fromEmail) == Some(entered)
    ensures keyring != null ==> forall key :: key != (smtpServer, fromEmail) ==>
                                  Lookup(keyring.store, key) == Lookup(old(keyring.store), key)
  {
    if keyring == null {
      return ImportError;
    }
    keyring.SetPassword(smtpServer, fromEmail, entered);
    outcome := Stored;
  }
}
