/**
 * The two handlers validate a message the same way: each raises on exactly
 * the same records, with the same exception, and then neither writes a
 * file nor calls the writer.
 */
module Agreement {
  import opened Records
  import Pickle
  import Tensorboard

  lemma HandlersRaiseAlike(files: Pickle.Store, record: Record)
    ensures Pickle.Emitted(files, record).Err? <==> Tensorboard.Calls(record).Err?
    ensures Pickle.Emitted(files, record).Err? ==>
      Pickle.Emitted(files, record).error == Tensorboard.Calls(record).error
  {
    Pickle.EmitFailsIffCheckFails(files, record);
    Tensorboard.EmitFailsIffCheckFails(record);
  }
}
