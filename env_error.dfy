/** The environment's error type, as far as the bootstrap produces it. */
module EnvError {

  /**
   * Causes reported by collaborators (Docker, the RPC clients, the file
   * system, BIP-32) are opaque text.
   */
  datatype Error =
    | Docker(cause: string)            // a container or network could not be started
    | BitcoinFunding(cause: string)    // a Bitcoin funding RPC failed
    | EtherFunding(cause: string)      // an ether or ERC20 funding call failed
    | CreateTmpFiles(cause: string)    // the cnd configuration folder could not be created
    | WriteConfig(cause: string)       // `cnd.toml` could not be written
    | Bip32(cause: string)             // master-key creation or child derivation failed
    | TempFs(cause: string)            // the temporary env-file path or folder is unavailable
    | SignalReceived                   // the termination flag was set at a checkpoint
    | Unit                             // a stage error, printed and then dropped to `()`
}
