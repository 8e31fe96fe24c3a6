TestResult.DisplayName,TestResult.Outcome,TestResult.Duration,TestResult.ResourceCount,RandomSeed
RUtils.MakeRVector (well-formedness),Passed,00:00:00.1291502,130356,4
RUtils.PrefixedLiteral (well-formedness),Passed,00:00:00.1070202,46660,4
RUtils.ParseCommaSpaceJoin (correctness),Passed,00:00:00.0827603,197032,4
RUtils.NamePrefix (well-formedness),Passed,00:00:00.0721171,13415,4
RUtils.IsTruthy (well-formedness),Passed,00:00:00.0717427,9379,4
RUtils.PrefixedLiteral (correctness),Passed,00:00:00.0455237,94985,4
RUtils.NamedRVector (correctness),Passed,00:00:00.0421589,132053,4
RUtils.CommaSpaceJoin (well-formedness),Passed,00:00:00.0385580,27804,4
RUtils.CommaSpaceJoin (correctness),Passed,00:00:00.0360073,94917,4
RUtils.ParseBody (well-formedness),Passed,00:00:00.0326995,47797,4
RUtils.PaddedHasNoComma (correctness),Passed,00:00:00.0299674,42519,4
RUtils.CommaFree (well-formedness),Passed,00:00:00.0255055,9352,4
RUtils.Padded (well-formedness),Passed,00:00:00.0197147,47188,4
RUtils.PaddedHasNoComma (well-formedness),Passed,00:00:00.0177030,25885,4
RUtils.BodyOfLiteral (correctness),Passed,00:00:00.0165037,22857,4
RUtils.Body (well-formedness),Passed,00:00:00.0088147,13406,4
RUtils.DropSpace (well-formedness),Passed,00:00:00.0080425,9732,4
